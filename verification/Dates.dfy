/** Calendar arithmetic of relative dates: shifts, unit ranges, weekdays, and the claiming of spans.

    Dates are proleptic Gregorian and years are unbounded: where Python raises for a year outside
    1..9999, these functions go on. */
module Dates {
  import opened Assoc

  datatype Date = Date(year: int, month: int, day: int)

  datatype Unit = Day | Week | Month | Quarter | Year

  datatype Range = Range(start: Date, end: Date)

  predicate Leap(y: int) {
    y % 4 == 0 && (y % 100 != 0 || y % 400 == 0)
  }

  function DaysIn(y: int, m: int): int {
    if m == 2 then (if Leap(y) then 29 else 28)
    else if m == 4 || m == 6 || m == 9 || m == 11 then 30
    else 31
  }

  predicate Valid(d: Date) {
    1 <= d.month <= 12 && 1 <= d.day <= DaysIn(d.year, d.month)
  }

  /** Days counted from the first of January of year 1, which is day 1. */
  function BeforeYear(y: int): int {
    (y - 1) * 365 + (y - 1) / 4 - (y - 1) / 100 + (y - 1) / 400
  }

  function BeforeMonth(y: int, m: int): int
    requires 1 <= m <= 13
    decreases m
  {
    if m == 1 then 0 else BeforeMonth(y, m - 1) + DaysIn(y, m - 1)
  }

  function Ordinal(d: Date): int
    requires Valid(d)
  {
    BeforeYear(d.year) + BeforeMonth(d.year, d.month) + d.day
  }

  /** The day of the week; Monday is 0. */
  function Weekday(d: Date): int
    requires Valid(d)
  {
    (Ordinal(d) + 6) % 7
  }

  // ----- ordinals are the order of dates -----

  lemma YearLength(y: int)
    ensures BeforeYear(y + 1) == BeforeYear(y) + BeforeMonth(y, 13)
    ensures BeforeMonth(y, 13) == if Leap(y) then 366 else 365
  {
    MonthSums(y);
    LeapDays(y);
    hide BeforeMonth, Leap;
    assert y + 1 - 1 == y;
  }

  lemma Every(y: int, k: int)
    requires k == 4 || k == 100 || k == 400
    ensures y / k == (y - 1) / k + if y % k == 0 then 1 else 0
  {
  }

  lemma Multiples(y: int)
    ensures y % 400 == 0 ==> y % 100 == 0
    ensures y % 100 == 0 ==> y % 4 == 0
  {
    if y % 400 == 0 { FourHundreds(y / 400); }
    if y % 100 == 0 { Hundreds(y / 100); }
  }

  lemma FourHundreds(q: int)
    ensures 400 * q % 100 == 0
  {
    assert 400 * q == 100 * (4 * q);
  }

  lemma Hundreds(q: int)
    ensures 100 * q % 4 == 0
  {
    assert 100 * q == 4 * (25 * q);
  }

  lemma LeapDays(y: int)
    ensures y / 4 - y / 100 + y / 400 == (y - 1) / 4 - (y - 1) / 100 + (y - 1) / 400 + if Leap(y) then 1 else 0
  {
    Every(y, 4);
    Every(y, 100);
    Every(y, 400);
    Multiples(y);
  }

  lemma MonthSums(y: int)
    ensures BeforeMonth(y, 13) == if Leap(y) then 366 else 365
  {
    assert BeforeMonth(y, 3) == 31 + DaysIn(y, 2);
    assert BeforeMonth(y, 5) == BeforeMonth(y, 3) + 61;
    assert BeforeMonth(y, 7) == BeforeMonth(y, 5) + 61;
    assert BeforeMonth(y, 9) == BeforeMonth(y, 7) + 62;
    assert BeforeMonth(y, 11) == BeforeMonth(y, 9) + 61;
    assert BeforeMonth(y, 13) == BeforeMonth(y, 11) + 61;
  }

  lemma {:induction false} MonthsRise(y: int, m: int, n: int)
    requires 1 <= m <= n <= 13
    ensures BeforeMonth(y, m) + 28 * (n - m) <= BeforeMonth(y, n)
    decreases n
  {
    if m < n { MonthsRise(y, m, n - 1); }
  }

  lemma {:induction false} YearsRise(y: int, z: int)
    requires y <= z
    ensures BeforeYear(y) + 365 * (z - y) <= BeforeYear(z)
    decreases z - y
  {
    if y < z {
      YearsRise(y, z - 1);
      YearLength(z - 1);
    }
  }

  predicate Earlier(a: Date, b: Date) {
    a.year < b.year || (a.year == b.year && (a.month < b.month || (a.month == b.month && a.day < b.day)))
  }

  lemma NothingBefore(y: int)
    ensures BeforeMonth(y, 1) == 0
  {
  }

  lemma EarlierOrdinal(a: Date, b: Date)
    requires Valid(a) && Valid(b) && Earlier(a, b)
    ensures Ordinal(a) < Ordinal(b)
  {
    hide BeforeYear, BeforeMonth, DaysIn, Leap;
    if a.year < b.year {
      YearsRise(a.year + 1, b.year);
      YearLength(a.year);
      MonthEnd(a, 13);
      MonthsRise(b.year, 1, b.month);
      NothingBefore(b.year);
    } else if a.month < b.month {
      MonthEnd(a, b.month);
    }
  }

  /** A date is before the first of any later month of its year. */
  lemma MonthEnd(a: Date, m: int)
    requires Valid(a) && a.month < m <= 13
    ensures BeforeMonth(a.year, a.month) + a.day <= BeforeMonth(a.year, m) && BeforeMonth(a.year, 1) == 0
  {
    MonthsRise(a.year, a.month + 1, m);
    hide DaysIn;
  }

  /** The ordinal orders dates as the calendar does, and no two dates share one. */
  lemma OrdinalOrder(a: Date, b: Date)
    requires Valid(a) && Valid(b)
    ensures Ordinal(a) < Ordinal(b) <==> Earlier(a, b)
    ensures Ordinal(a) == Ordinal(b) <==> a == b
  {
    if Earlier(a, b) { EarlierOrdinal(a, b); }
    if Earlier(b, a) { EarlierOrdinal(b, a); }
  }

  function NextDay(d: Date): (r: Date)
    requires Valid(d)
    ensures Valid(r)
  {
    if d.day < DaysIn(d.year, d.month) then Date(d.year, d.month, d.day + 1)
    else if d.month < 12 then Date(d.year, d.month + 1, 1)
    else Date(d.year + 1, 1, 1)
  }

  function PrevDay(d: Date): (r: Date)
    requires Valid(d)
    ensures Valid(r)
  {
    if d.day > 1 then Date(d.year, d.month, d.day - 1)
    else if d.month > 1 then Date(d.year, d.month - 1, DaysIn(d.year, d.month - 1))
    else Date(d.year - 1, 12, 31)
  }

  lemma NextOrdinal(d: Date)
    requires Valid(d)
    ensures Ordinal(NextDay(d)) == Ordinal(d) + 1
  {
    YearLength(d.year);
    hide BeforeYear;
  }

  lemma PrevOrdinal(d: Date)
    requires Valid(d)
    ensures Ordinal(PrevDay(d)) == Ordinal(d) - 1
  {
    YearLength(d.year - 1);
    hide BeforeYear;
  }

  /** The date n days later, or earlier when n is negative. */
  function AddDays(d: Date, n: int): (r: Date)
    requires Valid(d)
    ensures Valid(r)
    decreases if n < 0 then -n else n
  {
    if n == 0 then d else if n > 0 then AddDays(NextDay(d), n - 1) else AddDays(PrevDay(d), n + 1)
  }

  lemma {:induction false} AddDaysOrdinal(d: Date, n: int)
    requires Valid(d)
    ensures Ordinal(AddDays(d, n)) == Ordinal(d) + n
    decreases if n < 0 then -n else n
  {
    hide Ordinal;
    if n > 0 {
      NextOrdinal(d);
      AddDaysOrdinal(NextDay(d), n - 1);
    }
    if n < 0 {
      PrevOrdinal(d);
      AddDaysOrdinal(PrevDay(d), n + 1);
    }
  }

  // ----- the module's own arithmetic -----

  /** From the first of one month to the end of the last of so many, within a year. */
  function Months(year: int, month: int, count: int): (r: Range)
    requires 1 <= month && 1 <= count && month + count - 1 <= 12
    ensures Valid(r.start) && Valid(r.end)
  {
    var last := month + count - 1;
    Range(Date(year, month, 1), Date(year, last, DaysIn(year, last)))
  }

  function MonthsPer(unit: Unit): int {
    if unit.Month? then 1 else if unit.Quarter? then 3 else 12
  }

  /** So many units later, or earlier; a day the new month does not have becomes its last. */
  function Shift(d: Date, unit: Unit, n: int): (r: Date)
    requires Valid(d)
    ensures Valid(r)
  {
    if unit.Day? then AddDays(d, n)
    else if unit.Week? then AddDays(d, 7 * n)
    else
      var index := d.year * 12 + d.month - 1 + n * MonthsPer(unit);
      var year, month := index / 12, index % 12;
      var last := DaysIn(year, month + 1);
      Date(year, month + 1, if d.day < last then d.day else last)
  }

  /** The range of the unit that a date falls in; weeks start on Mondays. */
  function UnitRange(d: Date, unit: Unit): (r: Range)
    requires Valid(d)
    ensures Valid(r.start) && Valid(r.end)
  {
    match unit
    case Day => Range(d, d)
    case Week =>
      var start := AddDays(d, -Weekday(d));
      Range(start, AddDays(start, 6))
    case Month => Months(d.year, d.month, 1)
    case Quarter => Months(d.year, 3 * ((d.month - 1) / 3) + 1, 3)
    case Year => Range(Date(d.year, 1, 1), Date(d.year, 12, 31))
  }

  predicate In(d: Date, r: Range)
    requires Valid(d) && Valid(r.start) && Valid(r.end)
  {
    Ordinal(r.start) <= Ordinal(d) <= Ordinal(r.end)
  }

  /** Numbers the ranges of a unit. */
  function Index(d: Date, unit: Unit): int
    requires Valid(d)
  {
    match unit
    case Day => Ordinal(d)
    case Week => (Ordinal(d) - 1) / 7
    case Month => d.year * 12 + d.month - 1
    case Quarter => d.year * 4 + (d.month - 1) / 3
    case Year => d.year
  }

  /** A range holds exactly the dates with its number. */
  lemma RangeIsIndexClass(d: Date, unit: Unit, e: Date)
    requires Valid(d) && Valid(e)
    ensures In(e, UnitRange(d, unit)) <==> Index(e, unit) == Index(d, unit)
  {
    hide Ordinal;
    var r := UnitRange(d, unit);
    if unit.Week? {
      WeekStart(d);
    } else {
      OrdinalOrder(r.start, e);
      OrdinalOrder(e, r.start);
      OrdinalOrder(r.end, e);
      OrdinalOrder(e, r.end);
    }
  }

  /** The range contains the date, and is the range of every date it contains. */
  lemma RangesPartition(d: Date, unit: Unit, e: Date)
    requires Valid(d) && Valid(e)
    ensures In(d, UnitRange(d, unit))
    ensures In(e, UnitRange(d, unit)) <==> UnitRange(e, unit) == UnitRange(d, unit)
  {
    RangeIsIndexClass(d, unit, d);
    RangeIsIndexClass(e, unit, e);
    RangeIsIndexClass(d, unit, e);
    if Index(e, unit) == Index(d, unit) { SameRange(d, unit, e); }
  }

  lemma SameRange(d: Date, unit: Unit, e: Date)
    requires Valid(d) && Valid(e) && Index(e, unit) == Index(d, unit)
    ensures UnitRange(e, unit) == UnitRange(d, unit)
  {
    hide Ordinal, DaysIn, AddDays;
    match unit
    case Day => OrdinalOrder(d, e);
    case Week =>
      WeekStart(d);
      WeekStart(e);
      OrdinalOrder(UnitRange(d, unit).start, UnitRange(e, unit).start);
    case Month =>
    case Quarter => QuarterParts(d.year, (d.month - 1) / 3, e.year, (e.month - 1) / 3);
    case Year =>
  }

  lemma QuarterParts(y: int, q: int, z: int, r: int)
    requires 0 <= q < 4 && 0 <= r < 4 && y * 4 + q == z * 4 + r
    ensures y == z && q == r
  {
  }

  lemma WeekStart(d: Date)
    requires Valid(d)
    ensures var r := UnitRange(d, Week);
      && Ordinal(r.start) == 7 * ((Ordinal(d) - 1) / 7) + 1 && Ordinal(r.end) == Ordinal(r.start) + 6
      && Ordinal(r.start) == Ordinal(d) - Weekday(d)
  {
    hide Ordinal;
    AddDaysOrdinal(d, -Weekday(d));
    AddDaysOrdinal(UnitRange(d, Week).start, 6);
  }

  /** The day after a range starts the next one: no gap. */
  lemma NextRangeFollows(d: Date, unit: Unit)
    requires Valid(d)
    ensures var after := NextDay(UnitRange(d, unit).end);
      UnitRange(after, unit).start == after && Index(after, unit) == Index(d, unit) + 1
  {
    hide Ordinal;
    match unit
    case Day => NextOrdinal(d);
    case Week => NextWeek(d);
    case Month =>
    case Quarter =>
    case Year =>
  }

  lemma NextWeek(d: Date)
    requires Valid(d)
    ensures var after := NextDay(UnitRange(d, Week).end);
      UnitRange(after, Week).start == after && Index(after, Week) == Index(d, Week) + 1
  {
    hide Ordinal;
    var after := NextDay(UnitRange(d, Week).end);
    WeekStart(d);
    NextOrdinal(UnitRange(d, Week).end);
    assert Ordinal(after) == 7 * ((Ordinal(d) - 1) / 7 + 1) + 1;
    assert Weekday(after) == 0;
  }

  /** The n-th range after r. */
  function RangesLater(r: Range, unit: Unit, n: nat): (s: Range)
    requires Valid(r.start) && Valid(r.end)
    ensures Valid(s.start) && Valid(s.end)
  {
    if n == 0 then r else UnitRange(NextDay(RangesLater(r, unit, n - 1).end), unit)
  }

  lemma ShiftIndex(d: Date, unit: Unit, n: int)
    requires Valid(d)
    ensures Index(Shift(d, unit, n), unit) == Index(d, unit) + n
  {
    match unit
    case Day => AddDaysOrdinal(d, n);
    case Week => AddDaysOrdinal(d, 7 * n);
    case Month =>
    case Quarter => QuarterOfMonth(d.year * 12 + d.month - 1, n);
    case Year =>
  }

  lemma QuarterOfMonth(index: int, n: int)
    ensures (index + 3 * n) / 12 * 4 + (index + 3 * n) % 12 / 3 == index / 12 * 4 + index % 12 / 3 + n
  {
    var i := index + 3 * n;
    assert i / 12 * 4 + i % 12 / 3 == i / 3;
    assert index / 12 * 4 + index % 12 / 3 == index / 3;
  }

  lemma {:induction false} LaterIndex(d: Date, unit: Unit, n: nat) returns (e: Date)
    requires Valid(d)
    ensures Valid(e) && Index(e, unit) == Index(d, unit) + n
            && RangesLater(UnitRange(d, unit), unit, n) == UnitRange(e, unit)
    decreases n
  {
    e := d;
    if n > 0 {
      var before := LaterIndex(d, unit, n - 1);
      e := RangeAfter(d, unit, n - 1, before);
    }
  }

  lemma RangeAfter(d: Date, unit: Unit, n: nat, before: Date) returns (e: Date)
    requires Valid(d) && Valid(before)
    requires Index(before, unit) == Index(d, unit) + n
             && RangesLater(UnitRange(d, unit), unit, n) == UnitRange(before, unit)
    ensures Valid(e) && Index(e, unit) == Index(d, unit) + n + 1
    ensures RangesLater(UnitRange(d, unit), unit, n + 1) == UnitRange(e, unit)
  {
    NextRangeFollows(before, unit);
    hide UnitRange, Index, NextDay, Ordinal, Valid;
    e := NextDay(UnitRange(before, unit).end);
  }

  /** Shifting by n units lands exactly n ranges later or earlier, whatever the month ends clamp. */
  lemma ShiftMovesWholeRanges(d: Date, unit: Unit, n: nat)
    requires Valid(d)
    ensures UnitRange(Shift(d, unit, n), unit) == RangesLater(UnitRange(d, unit), unit, n)
    ensures RangesLater(UnitRange(Shift(d, unit, 0 - n), unit), unit, n) == UnitRange(d, unit)
  {
    hide UnitRange, Index, Shift;
    ShiftIndex(d, unit, n);
    ShiftIndex(d, unit, 0 - n);
    var later := LaterIndex(d, unit, n);
    var back := LaterIndex(Shift(d, unit, 0 - n), unit, n);
    SameRange(later, unit, Shift(d, unit, n));
    SameRange(back, unit, d);
  }

  // ----- relative expressions -----

  datatype Rel = Last | This | Next

  /** "last Friday", "next Friday", "on Friday": Python's % and Dafny's agree, the divisor is positive. */
  function RelativeWeekday(ref: Date, target: int, rel: Rel): (r: Date)
    requires Valid(ref) && 0 <= target < 7
    ensures Valid(r)
  {
    match rel
    case Last => AddDays(ref, -((Weekday(ref) - target - 1) % 7 + 1))
    case Next => AddDays(ref, (target - Weekday(ref) - 1) % 7 + 1)
    case This => AddDays(AddDays(ref, -Weekday(ref)), target)
  }

  /** Where the wanted day may lie: the 7 days before, the 7 days after, the ISO week of the reference. */
  predicate Window(ref: Date, rel: Rel, d: Date)
    requires Valid(ref) && Valid(d)
  {
    match rel
    case Last => Ordinal(ref) - 7 <= Ordinal(d) < Ordinal(ref)
    case Next => Ordinal(ref) < Ordinal(d) <= Ordinal(ref) + 7
    case This => In(d, UnitRange(ref, Week))
  }

  /** The resolved day is the only one of its weekday in that window. */
  lemma RelativeWeekdayUnique(ref: Date, target: int, rel: Rel, d: Date)
    requires Valid(ref) && Valid(d) && 0 <= target < 7
    ensures Weekday(d) == target && Window(ref, rel, d) <==> d == RelativeWeekday(ref, target, rel)
  {
    var r := RelativeWeekday(ref, target, rel);
    OrdinalOrder(d, r);
    WeekdayAt(ref, target, rel);
    hide Ordinal, RelativeWeekday, Weekday, UnitRange, Valid;
    var low := match rel
      case Last => Ordinal(ref) - 7
      case Next => Ordinal(ref) + 1
      case This => Ordinal(ref) - Weekday(ref);
    if rel.This? { WeekStart(ref); }
    OneInSeven(d, r, low);
  }

  lemma WeekdayAt(ref: Date, target: int, rel: Rel)
    requires Valid(ref) && 0 <= target < 7
    ensures var r, o := RelativeWeekday(ref, target, rel), Ordinal(ref);
      && Weekday(r) == target
      && (rel.Last? ==> o - 7 <= Ordinal(r) < o)
      && (rel.Next? ==> o < Ordinal(r) <= o + 7)
      && (rel.This? ==> o - Weekday(ref) <= Ordinal(r) < o - Weekday(ref) + 7)
  {
    hide Ordinal, Valid, AddDays;
    var o, w := Ordinal(ref), Weekday(ref);
    match rel
    case Last =>
      AddDaysOrdinal(ref, -((w - target - 1) % 7 + 1));
      Backward(o, target);
    case Next =>
      AddDaysOrdinal(ref, (target - w - 1) % 7 + 1);
      Onward(o, target);
    case This =>
      AddDaysOrdinal(ref, -w);
      AddDaysOrdinal(AddDays(ref, -w), target);
      Within(o, target);
  }

  lemma Within(o: int, t: int)
    requires 0 <= t < 7
    ensures (o - (o + 6) % 7 + t + 6) % 7 == t
  {
  }

  lemma Backward(o: int, t: int)
    requires 0 <= t < 7
    ensures (o - (((o + 6) % 7 - t - 1) % 7 + 1) + 6) % 7 == t
  {
  }

  lemma Onward(o: int, t: int)
    requires 0 <= t < 7
    ensures (o + ((t - (o + 6) % 7 - 1) % 7 + 1) + 6) % 7 == t
  {
  }

  /** Of seven days in a row, one has a given remainder. */
  lemma OneInSeven(d: Date, r: Date, low: int)
    requires Valid(d) && Valid(r) && low <= Ordinal(r) < low + 7
    ensures low <= Ordinal(d) < low + 7 && Weekday(d) == Weekday(r) <==> Ordinal(d) == Ordinal(r)
  {
    hide Ordinal;
  }

  /** "last December", "next March", or the month of the reference's year. */
  function NamedMonth(ref: Date, month: int, rel: Rel): (r: Range)
    requires Valid(ref) && 1 <= month <= 12
    ensures Valid(r.start) && Valid(r.end)
  {
    var year := match rel
      case Last => ref.year - if month >= ref.month then 1 else 0
      case Next => ref.year + if month <= ref.month then 1 else 0
      case This => ref.year;
    Months(year, month, 1)
  }

  /** The last such month is the only one among the 12 months before the reference's, the next the only
      one among the 12 after it. */
  lemma NamedMonthUnique(ref: Date, month: int, rel: Rel, d: Date)
    requires Valid(ref) && Valid(d) && 1 <= month <= 12 && !rel.This?
    ensures In(d, NamedMonth(ref, month, rel)) <==>
            d.month == month && (if rel.Last? then Index(ref, Month) - 12 <= Index(d, Month) < Index(ref, Month)
                                 else Index(ref, Month) < Index(d, Month) <= Index(ref, Month) + 12)
  {
    var r := NamedMonth(ref, month, rel);
    RangeIsIndexClass(r.start, Month, d);
    YearAndMonth(r.start.year, month - 1, d.year, d.month - 1);
    hide Ordinal, DaysIn;
  }

  lemma YearAndMonth(y: int, m: int, z: int, n: int)
    requires 0 <= m < 12 && 0 <= n < 12
    ensures y * 12 + m == z * 12 + n <==> y == z && m == n
  {
  }

  /** "past 3 weeks" starts no later than it ends. */
  lemma PastIsARange(ref: Date, unit: Unit, n: int)
    requires Valid(ref) && n >= 0
    ensures Ordinal(Shift(ref, unit, -n)) <= Ordinal(ref)
  {
    var start := Shift(ref, unit, -n);
    if unit.Day? {
      AddDaysOrdinal(ref, -n);
    } else if unit.Week? {
      AddDaysOrdinal(ref, 7 * -n);
    } else {
      OrdinalOrder(ref, start);
    }
  }

  // ----- claiming spans of the text -----

  /** A match of some pattern, and the range it resolves to (None: not a date). */
  datatype Match = Match(s: int, e: int, range: Option<Range>)

  predicate Overlap(a: Match, b: Match) {
    a.s < b.e && b.s < a.e
  }

  predicate Free(m: Match, taken: seq<Match>) {
    forall i :: 0 <= i < |taken| ==> !Overlap(m, taken[i])
  }

  /** The matches claimed, in the order of the patterns. */
  function Claims(ms: seq<Match>): (r: seq<Match>) {
    if ms == [] then []
    else
      var m, before := ms[|ms| - 1], Claims(ms[..|ms| - 1]);
      if Free(m, before) && m.range.Some? then before + [m] else before
  }

  /** Claimed spans never overlap; they are dates, and every date that is free in its turn is claimed. */
  lemma {:induction false} ClaimsAreDisjoint(ms: seq<Match>)
    ensures var r := Claims(ms);
      && (forall i, j :: 0 <= i < j < |r| ==> !Overlap(r[i], r[j]) && !Overlap(r[j], r[i]))
      && (forall m :: m in r ==> m in ms && m.range.Some?)
      && (forall k :: 0 <= k < |ms| && ms[k].range.Some? && Free(ms[k], Claims(ms[..k])) ==> ms[k] in r)
  {
    if ms != [] {
      var n := |ms| - 1;
      ClaimsAreDisjoint(ms[..n]);
      forall k | 0 <= k < n ensures ms[..n][..k] == ms[..k] {
      }
      assert ms == ms[..n] + [ms[n]];
      assert forall k :: 0 <= k < n ==> ms[..n][k] == ms[k];
    }
  }

  /** A match is left out exactly when it is no date, or when an earlier claim, not this same match found by
      another pattern, overlaps it. */
  lemma {:induction false} ClaimedIff(ms: seq<Match>, k: nat)
    requires k < |ms|
    ensures var before := Claims(ms[..k]);
      ms[k] in Claims(ms) <==> ms[k].range.Some? && (ms[k] in before || Free(ms[k], before))
  {
    var n := |ms| - 1;
    if k < n {
      ClaimedIff(ms[..n], k);
      assert ms[..n][..k] == ms[..k];
      ClaimsGrow(ms[..n], k);
    } else {
      ClaimsAreDisjoint(ms[..k]);
    }
  }

  lemma {:induction false} ClaimsGrow(ms: seq<Match>, k: nat)
    requires k <= |ms|
    ensures Claims(ms[..k]) <= Claims(ms)
  {
    if k < |ms| {
      ClaimsGrow(ms[..|ms| - 1], k);
      assert ms[..|ms| - 1][..k] == ms[..k];
    } else {
      assert ms[..k] == ms;
    }
  }

  function InsertByPos(m: Match, s: seq<Match>): (r: seq<Match>)
    ensures multiset(r) == multiset(s) + multiset{m}
  {
    if s == [] then [m]
    else
      var n := |s| - 1;
      assert s == s[..n] + [s[n]];
      if s[n].s < m.s || (s[n].s == m.s && s[n].e <= m.e) then s + [m] else InsertByPos(m, s[..n]) + [s[n]]
  }

  function ByPos(s: seq<Match>): (r: seq<Match>)
    ensures multiset(r) == multiset(s)
  {
    if s == [] then []
    else
      assert s == s[..|s| - 1] + [s[|s| - 1]];
      InsertByPos(s[|s| - 1], ByPos(s[..|s| - 1]))
  }

  function Flat(patterns: seq<seq<Match>>): seq<Match> {
    if patterns == [] then [] else Flat(patterns[..|patterns| - 1]) + patterns[|patterns| - 1]
  }

  lemma ClaimNext(front: seq<Match>, m: Match)
    ensures var before := Claims(front);
      Claims(front + [m]) == if Free(m, before) && m.range.Some? then before + [m] else before
  {
    assert (front + [m])[..|front|] == front;
  }

  /** One pattern's matches, after those of front have been claimed. */
  method ClaimPattern(claimed: seq<Match>, matches: seq<Match>, ghost front: seq<Match>) returns (taken: seq<Match>)
    requires claimed == Claims(front)
    ensures taken == Claims(front + matches)
  {
    taken := claimed;
    ghost var seen := front;
    for k := 0 to |matches|
      invariant seen == front + matches[..k] && taken == Claims(seen)
    {
      var m := matches[k];
      ClaimNext(seen, m);
      hide Claims, Free;
      assert matches[..k + 1] == matches[..k] + [m];
      seen := seen + [m];
      if Free(m, taken) && m.range.Some? {
        taken := taken + [m];
      }
    }
    assert matches[..|matches|] == matches;
  }

  /** Every match covers some text. */
  ghost predicate Nonempty(ms: seq<Match>) {
    forall i :: 0 <= i < |ms| ==> ms[i].s < ms[i].e
  }

  /** The claims of non-empty matches, sorted, follow one another in the text. */
  lemma ClaimsAreTidy(ms: seq<Match>)
    requires Nonempty(ms)
    ensures Tidy(ByPos(Claims(ms)))
  {
    ClaimsAreDisjoint(ms);
    var claims := Claims(ms);
    forall i | 0 <= i < |claims| ensures claims[i].s < claims[i].e {
      assert claims[i] in ms;
    }
    SpansAreTidy(claims);
  }

  /** find_dates, given each pattern's matches: the claimed ones, in text order, each ending before the
      next begins. */
  method FindDates(patterns: seq<seq<Match>>) returns (spans: seq<Match>)
    ensures spans == ByPos(Claims(Flat(patterns)))
    ensures Nonempty(Flat(patterns)) ==> Tidy(spans)
  {
    var taken: seq<Match> := [];
    for p := 0 to |patterns|
      invariant taken == Claims(Flat(patterns[..p]))
    {
      assert patterns[..p + 1][..p] == patterns[..p];
      taken := ClaimPattern(taken, patterns[p], Flat(patterns[..p]));
    }
    assert patterns[..|patterns|] == patterns;
    spans := ByPos(taken);
    if Nonempty(Flat(patterns)) { ClaimsAreTidy(Flat(patterns)); }
  }

  ghost predicate Tidy(spans: seq<Match>) {
    forall i, j :: 0 <= i < j < |spans| ==> spans[i].e <= spans[j].s
  }

  lemma LastTidy(s: seq<Match>, m: Match)
    requires Tidy(s) && forall i :: 0 <= i < |s| ==> s[i].e <= m.s
    ensures Tidy(s + [m])
  {
  }

  lemma {:induction false} InsertTidy(m: Match, s: seq<Match>)
    requires Tidy(s) && m.s < m.e && (forall i :: 0 <= i < |s| ==> s[i].s < s[i].e) && Free(m, s)
    ensures Tidy(InsertByPos(m, s))
  {
    if s != [] {
      var n := |s| - 1;
      if s[n].s > m.s {
        InsertTidy(m, s[..n]);
        var r := InsertByPos(m, s[..n]);
        forall i | 0 <= i < |r| ensures r[i].e <= s[n].s {
          assert r[i] in multiset(r);
          assert r[i] == m || r[i] in s[..n];
        }
        hide InsertByPos;
        LastTidy(r, s[n]);
      }
    }
  }

  /** The spans find_dates returns are in text order, one ending before the next begins. */
  lemma {:induction false} SpansAreTidy(claims: seq<Match>)
    requires forall i :: 0 <= i < |claims| ==> claims[i].s < claims[i].e
    requires forall i, j :: 0 <= i < j < |claims| ==> !Overlap(claims[i], claims[j]) && !Overlap(claims[j], claims[i])
    ensures Tidy(ByPos(claims))
  {
    if claims != [] {
      var n := |claims| - 1;
      SpansAreTidy(claims[..n]);
      var s := ByPos(claims[..n]);
      forall i | 0 <= i < |s| ensures s[i].s < s[i].e && !Overlap(claims[n], s[i]) {
        assert s[i] in multiset(s);
        assert s[i] in claims[..n];
      }
      InsertTidy(claims[n], s);
    }
  }
}

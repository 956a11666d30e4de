/** Proleptic Gregorian dates and time zones, as far as recurrence expansion uses them. */
module Calendar {
  import opened Prelude
  import opened Storage

  datatype Date = Date(year: int, month: int, day: int)
  /** A naive datetime: a date and the microseconds since its midnight. */
  datatype DateTime = DateTime(date: Date, time: int)

  const MAX_YEAR := 9999

  predicate Leap(year: int) {
    year % 4 == 0 && (year % 100 != 0 || year % 400 == 0)
  }

  function DaysIn(year: int, month: int): (days: int)
    ensures 28 <= days <= 31
  {
    if month == 2 then (if Leap(year) then 29 else 28)
    else if month in {4, 6, 9, 11} then 30 else 31
  }

  predicate Valid(d: Date) {
    1 <= d.year <= MAX_YEAR && 1 <= d.month <= 12 && 1 <= d.day <= DaysIn(d.year, d.month)
  }

  predicate ValidTime(t: DateTime) {
    Valid(t.date) && 0 <= t.time < DAY
  }

  function DaysBeforeYear(year: int): int {
    var y := year - 1;
    365 * y + y / 4 - y / 100 + y / 400
  }

  const DAYS_BEFORE := [0, 31, 59, 90, 120, 151, 181, 212, 243, 273, 304, 334, 365]

  function DaysBeforeMonth(year: int, month: int): int
    requires 1 <= month <= 13
  {
    DAYS_BEFORE[month - 1] + if month > 2 && Leap(year) then 1 else 0
  }

  function Ordinal(d: Date): int
    requires 1 <= d.month <= 12
  {
    DaysBeforeYear(d.year) + DaysBeforeMonth(d.year, d.month) + d.day
  }

  function WallOf(t: DateTime): Wall
    requires ValidTime(t)
  {
    Ordinal(t.date) * DAY + t.time
  }

  predicate Before(a: Date, b: Date) {
    a.year < b.year || (a.year == b.year && (a.month < b.month || (a.month == b.month && a.day < b.day)))
  }

  lemma EpochDay()
    ensures Ordinal(Date(1970, 1, 1)) == EPOCH_DAY && Ordinal(Date(1, 1, 1)) == 1
  {
  }

  lemma Multiples(y: int)
    ensures y / 4 - (y - 1) / 4 == if y % 4 == 0 then 1 else 0
    ensures y / 100 - (y - 1) / 100 == if y % 100 == 0 then 1 else 0
    ensures y / 400 - (y - 1) / 400 == if y % 400 == 0 then 1 else 0
  {
  }

  lemma Centuries(y: int)
    ensures y % 100 == 0 ==> y % 4 == 0
    ensures y % 400 == 0 ==> y % 100 == 0
  {
  }

  lemma YearLength(year: int)
    ensures DaysBeforeYear(year + 1) == DaysBeforeYear(year) + DaysBeforeMonth(year, 13)
  {
    Multiples(year);
    Centuries(year);
    assert DaysBeforeYear(year + 1) - DaysBeforeYear(year)
        == 365 + (year / 4 - (year - 1) / 4) - (year / 100 - (year - 1) / 100) + (year / 400 - (year - 1) / 400);
  }

  lemma MonthLength(year: int, m: int)
    requires 1 <= m <= 12
    ensures DaysBeforeMonth(year, m) + DaysIn(year, m) == DaysBeforeMonth(year, m + 1)
  {
  }

  lemma LaterMonth(year: int, m: int, n: int)
    requires 1 <= m < n <= 13
    ensures DaysBeforeMonth(year, m) + DaysIn(year, m) <= DaysBeforeMonth(year, n)
  {
  }

  lemma {:induction false} LaterYear(y: int, z: int)
    requires y < z
    ensures DaysBeforeYear(y) + DaysBeforeMonth(y, 13) <= DaysBeforeYear(z)
    decreases z - y
  {
    hide DaysBeforeYear, Leap;
    YearLength(y);
    if y + 1 < z { LaterYear(y + 1, z); }
  }

  lemma BeforeHasLessOrdinal(a: Date, b: Date)
    requires Valid(a) && Valid(b) && Before(a, b)
    ensures Ordinal(a) < Ordinal(b)
  {
    hide DaysBeforeYear, Leap, DaysIn;
    if a.year < b.year {
      LaterYear(a.year, b.year);
      LaterMonth(a.year, a.month, 13);
    } else if a.month < b.month {
      LaterMonth(a.year, a.month, b.month);
    }
  }

  /** Day numbers order valid dates as the calendar does. */
  lemma OrdinalOrders(a: Date, b: Date)
    requires Valid(a) && Valid(b)
    ensures Before(a, b) <==> Ordinal(a) < Ordinal(b)
    ensures a == b <==> Ordinal(a) == Ordinal(b)
  {
    if Before(a, b) { BeforeHasLessOrdinal(a, b); }
    else if Before(b, a) { BeforeHasLessOrdinal(b, a); }
  }

  // date + timedelta(days=1); None past the last representable day.
  function NextDay(d: Date): (next: Option<Date>)
    requires Valid(d)
    ensures next.Some? ==> Valid(next.value)
  {
    if d.day < DaysIn(d.year, d.month) then Some(Date(d.year, d.month, d.day + 1))
    else if d.month < 12 then Some(Date(d.year, d.month + 1, 1))
    else if d.year < MAX_YEAR then Some(Date(d.year + 1, 1, 1))
    else None
  }

  function AddDays(d: Date, days: nat): (next: Option<Date>)
    requires Valid(d)
    ensures next.Some? ==> Valid(next.value)
    decreases days
  {
    if days == 0 then Some(d)
    else match NextDay(d)
      case None => None
      case Some(e) => AddDays(e, days - 1)
  }

  lemma NextDayOrdinal(d: Date)
    requires Valid(d)
    ensures NextDay(d).Some? ==> Ordinal(NextDay(d).value) == Ordinal(d) + 1
    ensures NextDay(d).None? ==> Ordinal(d) == Ordinal(Date(MAX_YEAR, 12, 31))
  {
    hide DaysBeforeYear, Leap;
    if d.day == DaysIn(d.year, d.month) {
      MonthLength(d.year, d.month);
      if d.month == 12 { YearLength(d.year); }
    }
  }

  lemma {:induction false} AddDaysOrdinal(d: Date, days: nat)
    requires Valid(d)
    ensures AddDays(d, days).Some? ==> Ordinal(AddDays(d, days).value) == Ordinal(d) + days
    ensures AddDays(d, days).None? <==> Ordinal(d) + days > Ordinal(Date(MAX_YEAR, 12, 31))
    decreases days
  {
    hide Ordinal;
    var last := Date(MAX_YEAR, 12, 31);
    NextDayOrdinal(d);
    OrdinalOrders(d, last);
    if days > 0 && NextDay(d).Some? { AddDaysOrdinal(NextDay(d).value, days - 1); }
  }

  // ---------- time zones ----------

  /** From the instant `at` on, local time is ahead of UTC by `offset`. */
  datatype Transition = Transition(at: Time, offset: int)
  datatype Zone = Zone(initial: int, transitions: seq<Transition>)

  function OffsetAt(z: Zone, t: Time): int
    decreases |z.transitions|
  {
    if z.transitions == [] then z.initial
    else
      var last := z.transitions[|z.transitions| - 1];
      if last.at <= t then last.offset
      else OffsetAt(Zone(z.initial, z.transitions[..|z.transitions| - 1]), t)
  }

  function Offsets(z: Zone): set<int> {
    {z.initial} + set x | x in z.transitions :: x.offset
  }

  // instant.astimezone(zone)
  function LocalOf(z: Zone, t: Time): Wall {
    t + EPOCH + OffsetAt(z, t)
  }

  /** The instants at which the zone's clocks read `w`. */
  function Readings(z: Zone, w: Wall): set<Time> {
    set o | o in Offsets(z) && OffsetAt(z, w - EPOCH - o) == o :: w - EPOCH - o
  }

  lemma {:induction false} OffsetListed(z: Zone, t: Time)
    ensures OffsetAt(z, t) in Offsets(z)
    decreases |z.transitions|
  {
    if z.transitions != [] && z.transitions[|z.transitions| - 1].at > t {
      OffsetListed(Zone(z.initial, z.transitions[..|z.transitions| - 1]), t);
    } else if z.transitions != [] {
      assert z.transitions[|z.transitions| - 1] in z.transitions;
    }
  }

  /** A local time exists in the zone exactly when some instant reads it. */
  lemma ReadingsExact(z: Zone, w: Wall, t: Time)
    ensures t in Readings(z, w) <==> LocalOf(z, t) == w
  {
    OffsetListed(z, t);
    if LocalOf(z, t) == w {
      var o := OffsetAt(z, t);
      assert o in Offsets(z) && t == w - EPOCH - o;
    }
  }

  /** A clock never reads two local times at once. */
  lemma DifferentReadings(z: Zone, v: Wall, w: Wall)
    requires v != w
    ensures Readings(z, v) !! Readings(z, w)
  {
    hide OffsetAt, Readings;
    forall t | t in Readings(z, v) ensures t !in Readings(z, w) {
      ReadingsExact(z, v, t);
      ReadingsExact(z, w, t);
    }
  }

  // ---------- zones that do not repeat a day ----------

  /** Every offset is strictly inside a day, as a datetime demands of its zone. */
  predicate OffsetsInsideADay(z: Zone) {
    forall o :: o in Offsets(z) ==> -DAY < o < DAY
  }

  /** The start of a stretch of time and the transitions in it. */
  function Marks(z: Zone, from: Time, to: Time): set<Time> {
    {from} + set x | x in z.transitions && from < x.at <= to :: x.at
  }

  /** Nowhere in the stretch do the clocks stand a day or more behind where they stood earlier in
      it. Other times do not matter: a zone that crossed the date line a century ago is steady
      over any stretch since. */
  predicate SteadyOver(z: Zone, from: Time, to: Time) {
    forall t, t' :: t in Marks(z, from, to) && t' in Marks(z, from, to) && t <= t' ==>
      OffsetAt(z, t) - OffsetAt(z, t') < DAY
  }

  lemma {:induction false} NoTransitionBetween(z: Zone, t: Time, t': Time)
    requires t <= t' && forall x :: x in z.transitions ==> !(t < x.at <= t')
    ensures OffsetAt(z, t) == OffsetAt(z, t')
    decreases |z.transitions|
  {
    if z.transitions != [] {
      var last, rest := z.transitions[|z.transitions| - 1], z.transitions[..|z.transitions| - 1];
      assert last in z.transitions;
      if last.at > t' { NoTransitionBetween(Zone(z.initial, rest), t, t'); }
    }
  }

  /** The offset at any time of the stretch is that of its latest mark. */
  lemma LatestMark(z: Zone, from: Time, to: Time, t: Time) returns (m: Time)
    requires from <= t <= to
    ensures m in Marks(z, from, to) && m <= t && OffsetAt(z, m) == OffsetAt(z, t)
    ensures forall x :: x in Marks(z, from, to) && x <= t ==> x <= m
  {
    hide OffsetAt;
    var backwards := set x | x in Marks(z, from, to) && x <= t :: -x;
    assert -from in backwards;
    m := -Least(backwards);
    forall x | x in Marks(z, from, to) && x <= t ensures x <= m {
      assert -x in backwards;
    }
    forall x | x in z.transitions ensures !(m < x.at <= t) {
      assert from < x.at <= to ==> x.at in Marks(z, from, to);
    }
    NoTransitionBetween(z, m, t);
  }

  /** So what the table shows at the marks holds all along. */
  lemma SteadyThroughout(z: Zone, from: Time, to: Time, t: Time, t': Time)
    requires SteadyOver(z, from, to) && from <= t <= t' <= to
    ensures OffsetAt(z, t) - OffsetAt(z, t') < DAY
  {
    hide OffsetAt, Marks;
    var m := LatestMark(z, from, to, t);
    var m' := LatestMark(z, from, to, t');
  }

  lemma ReadingsNear(z: Zone, w: Wall, t: Time)
    requires OffsetsInsideADay(z) && t in Readings(z, w)
    ensures w - EPOCH - DAY < t < w - EPOCH + DAY
  {
  }

  /** Where the zone is steady, local times a day or more apart are read in their order. */
  lemma ReadingsInOrder(z: Zone, v: Wall, w: Wall, t: Time, t': Time, from: Time, to: Time)
    requires v + DAY <= w && t in Readings(z, v) && t' in Readings(z, w)
    requires SteadyOver(z, from, to) && from <= t <= to && from <= t' <= to
    ensures t < t'
  {
    hide OffsetAt, Readings, SteadyOver;
    ReadingsExact(z, v, t);
    ReadingsExact(z, w, t');
    if t' <= t { SteadyThroughout(z, from, to, t', t); }
  }
}

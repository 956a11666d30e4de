/** backend/app/domain/recurrence.py: expansion of a finite wall-clock series. */
module Recurrence {
  import opened Prelude
  import opened Storage
  import opened Calendar

  datatype Occurrence = Occurrence(local: DateTime, instant: Time)

  datatype ExpandError = UnknownZone | EndsEarly | TooMany | OutOfRange

  function MonthNumber(d: Date): int {
    12 * d.year + d.month
  }

  // _next_month; None past the last representable year.
  function NextMonth(d: Date, wantedDay: int): (next: Option<Date>)
    requires Valid(d) && wantedDay >= 1
    ensures next.None? <==> MonthNumber(d) == MonthNumber(Date(MAX_YEAR, 12, 31))
    ensures next.Some? ==> Valid(next.value) && MonthNumber(next.value) == MonthNumber(d) + 1
    ensures next.Some? ==>
              next.value.day == wantedDay
              || (next.value.day == 1 && !Valid(Date(next.value.year, next.value.month, wantedDay)))
  {
    var year, month := if d.month == 12 then d.year + 1 else d.year, if d.month == 12 then 1 else d.month + 1;
    if year > MAX_YEAR then None
    else Some(Date(year, month, if wantedDay <= DaysIn(year, month) then wantedDay else 1))
  }

  function Advance(f: Frequency, wantedDay: int, d: Date): (next: Option<Date>)
    requires Valid(d) && wantedDay >= 1
    ensures next.Some? ==> Valid(next.value)
  {
    match f
    case Daily => AddDays(d, 1)
    case Weekly => AddDays(d, 7)
    case Monthly => NextMonth(d, wantedDay)
  }

  lemma AdvanceOrdinal(f: Frequency, wantedDay: int, d: Date)
    requires Valid(d) && wantedDay >= 1
    ensures Advance(f, wantedDay, d).Some? ==> Ordinal(d) < Ordinal(Advance(f, wantedDay, d).value)
  {
    hide Ordinal;
    AddDaysOrdinal(d, 1);
    AddDaysOrdinal(d, 7);
    if NextMonth(d, wantedDay).Some? { OrdinalOrders(d, NextMonth(d, wantedDay).value); }
  }

  /** The occurrence on the day under the cursor, if the day counts and the time exists. */
  function Here(z: Zone, f: Frequency, start: DateTime, d: Date): seq<Occurrence>
    requires ValidTime(start) && Valid(d)
  {
    var local := DateTime(d, start.time);
    if (f.Monthly? ==> d.day == start.date.day) && Readings(z, WallOf(local)) != {}
    then [Occurrence(local, Least(Readings(z, WallOf(local))))] else []
  }

  /** All occurrences from the cursor to the end date. */
  function Expand(z: Zone, f: Frequency, start: DateTime, end: Date, cursor: Date): seq<Occurrence>
    requires ValidTime(start) && Valid(end) && Valid(cursor)
    decreases Ordinal(end) - Ordinal(cursor)
  {
    if Before(end, cursor) then []
    else
      OrdinalOrders(end, cursor);
      AdvanceOrdinal(f, start.date.day, cursor);
      match Advance(f, start.date.day, cursor)
      case None => Here(z, f, start, cursor)
      case Some(next) => Here(z, f, start, cursor) + Expand(z, f, start, end, next)
  }

  /** The cursor leaves the calendar before it passes the end date. */
  predicate RunsOut(f: Frequency, start: DateTime, end: Date, cursor: Date)
    requires ValidTime(start) && Valid(end) && Valid(cursor)
    decreases Ordinal(end) - Ordinal(cursor)
  {
    if Before(end, cursor) then false
    else
      OrdinalOrders(end, cursor);
      AdvanceOrdinal(f, start.date.day, cursor);
      match Advance(f, start.date.day, cursor)
      case None => true
      case Some(next) => RunsOut(f, start, end, next)
  }

  function Expansion(zones: map<string, Zone>, timezone: string, f: Frequency, start: DateTime, end: Date, limit: nat)
    : Result<seq<Occurrence>, ExpandError>
    requires ValidTime(start) && Valid(end)
  {
    if timezone !in zones then Failure(UnknownZone)
    else if Before(end, start.date) then Failure(EndsEarly)
    else
      var all := Expand(zones[timezone], f, start, end, start.date);
      if |all| > limit then Failure(TooMany)
      else if RunsOut(f, start, end, start.date) then Failure(OutOfRange)
      else Success(all)
  }

  lemma TakeOff(z: Zone, f: Frequency, start: DateTime, end: Date, cursor: Date)
    requires ValidTime(start) && Valid(end) && Valid(cursor) && !Before(end, cursor)
    ensures var next := Advance(f, start.date.day, cursor); var head := Here(z, f, start, cursor);
            && Expand(z, f, start, end, cursor)
               == (if next.Some? then head + Expand(z, f, start, end, next.value) else head)
            && RunsOut(f, start, end, cursor) == (next.Some? ==> RunsOut(f, start, end, next.value))
  {
  }

  // lines 60-102
  method ExpandOccurrences(start: DateTime, zones: map<string, Zone>, timezone: string, f: Frequency, end: Date,
                           limit: nat)
    returns (r: Result<seq<Occurrence>, ExpandError>)
    requires ValidTime(start) && Valid(end)
    ensures r == Expansion(zones, timezone, f, start, end, limit)
  {
    hide Readings, Ordinal, Expand, RunsOut, Advance, WallOf, Before, DaysIn;
    if timezone !in zones { return Failure(UnknownZone); }
    var zone := zones[timezone];
    if Before(end, start.date) { return Failure(EndsEarly); }
    var result: seq<Occurrence> := [];
    var cursor := start.date;
    var wantedDay := start.date.day;
    ghost var all := Expand(zone, f, start, end, start.date);
    while !Before(end, cursor)
      invariant Valid(cursor) && |result| <= limit
      invariant all == result + Expand(zone, f, start, end, cursor)
      invariant RunsOut(f, start, end, start.date) <==> RunsOut(f, start, end, cursor)
      decreases Ordinal(end) - Ordinal(cursor)
    {
      OrdinalOrders(end, cursor);
      AdvanceOrdinal(f, wantedDay, cursor);
      ghost var before, head := result, Here(zone, f, start, cursor);
      TakeOff(zone, f, start, end, cursor);
      ghost var following := Advance(f, wantedDay, cursor);
      ghost var rest := if following.Some? then Expand(zone, f, start, end, following.value) else [];
      assert Expand(zone, f, start, end, cursor) == head + rest;
      assert all == before + head + rest;
      var validCalendarDay := !f.Monthly? || cursor.day == wantedDay;
      if validCalendarDay {
        var candidate := DateTime(cursor, start.time);
        var readings := Readings(zone, WallOf(candidate));
        if readings != {} {
          result := result + [Occurrence(candidate, Least(readings))];
          assert result == before + head;
          if |result| > limit { return Failure(TooMany); }
        }
      }
      assert result == before + head;
      var next := Advance(f, wantedDay, cursor);
      if next.None? { return Failure(OutOfRange); }
      cursor := next.value;
    }
    Landed(zone, f, start, end, cursor);
    assert all == result;
    r := Success(result);
  }

  lemma Landed(z: Zone, f: Frequency, start: DateTime, end: Date, cursor: Date)
    requires ValidTime(start) && Valid(end) && Valid(cursor) && Before(end, cursor)
    ensures Expand(z, f, start, end, cursor) == [] && !RunsOut(f, start, end, cursor)
  {
  }

  // ---------- what the expansion contains ----------

  /** The rule of the series, day by day: every day, the same weekday, the same day of the
      month (a month without that day has no occurrence). */
  predicate Recurs(f: Frequency, start: Date, d: Date)
    requires Valid(start)
  {
    && Valid(d) && !Before(d, start)
    && match f
       case Daily => true
       case Weekly => (Ordinal(d) - Ordinal(start)) % 7 == 0
       case Monthly => d.day == start.day
  }

  /** A day on which the series has an occurrence: it recurs, it is not past the inclusive end
      date, and the wall-clock time exists that day. */
  predicate Occurs(z: Zone, f: Frequency, start: DateTime, end: Date, d: Date)
    requires ValidTime(start)
  {
    Recurs(f, start.date, d) && !Before(end, d) && Readings(z, WallOf(DateTime(d, start.time))) != {}
  }

  /** Where the cursor can stand: on a recurring day, or on the 1st of a month too short. */
  predicate OnGrid(f: Frequency, start: Date, cursor: Date)
    requires Valid(start)
  {
    Recurs(f, start, cursor)
    || (f.Monthly? && Valid(cursor) && Before(start, cursor)
        && cursor.day == 1 && DaysIn(cursor.year, cursor.month) < start.day)
  }

  lemma {:induction false} NextOnGrid(f: Frequency, start: Date, cursor: Date)
    requires Valid(start) && OnGrid(f, start, cursor)
    ensures Advance(f, start.day, cursor).Some? ==> OnGrid(f, start, Advance(f, start.day, cursor).value)
  {
    hide Ordinal, DaysIn;
    AdvanceOrdinal(f, start.day, cursor);
    match Advance(f, start.day, cursor)
    case None =>
    case Some(next) =>
      AddDaysOrdinal(cursor, 1);
      AddDaysOrdinal(cursor, 7);
      OrdinalOrders(start, cursor);
      OrdinalOrders(start, next);
  }

  /** Nothing recurs strictly between two positions of the cursor. */
  lemma NothingSkipped(f: Frequency, start: Date, cursor: Date, d: Date)
    requires Valid(start) && OnGrid(f, start, cursor) && Recurs(f, start, d) && Before(cursor, d)
    ensures Advance(f, start.day, cursor).Some? && !Before(d, Advance(f, start.day, cursor).value)
  {
    hide Ordinal, Leap, AddDays, NextMonth, DaysIn;
    if f.Monthly? { NoMonthSkipped(start, cursor, d); }
    else {
      OrdinalOrders(cursor, d);
      if f.Weekly? { WeeksApart(Ordinal(start), Ordinal(cursor), Ordinal(d)); }
      NoDaySkipped(cursor, d, if f.Daily? then 1 else 7);
    }
  }

  lemma NoDaySkipped(cursor: Date, d: Date, days: nat)
    requires Valid(cursor) && Valid(d) && Ordinal(cursor) + days <= Ordinal(d)
    ensures AddDays(cursor, days).Some? && !Before(d, AddDays(cursor, days).value)
  {
    hide Ordinal, Leap, AddDays, DaysIn;
    var last := Date(MAX_YEAR, 12, 31);
    AddDaysOrdinal(cursor, days);
    LastDay(d);
    if AddDays(cursor, days).Some? { OrdinalOrders(d, AddDays(cursor, days).value); }
  }

  lemma LastDay(d: Date)
    requires Valid(d)
    ensures Valid(Date(MAX_YEAR, 12, 31)) && Ordinal(d) <= Ordinal(Date(MAX_YEAR, 12, 31))
  {
  }

  lemma NoMonthSkipped(start: Date, cursor: Date, d: Date)
    requires Valid(start) && OnGrid(Monthly, start, cursor) && Recurs(Monthly, start, d) && Before(cursor, d)
    ensures NextMonth(cursor, start.day).Some? && !Before(d, NextMonth(cursor, start.day).value)
  {
  }

  lemma WeeksApart(start: int, cursor: int, d: int)
    requires (cursor - start) % 7 == 0 && (d - start) % 7 == 0 && cursor < d
    ensures cursor + 7 <= d
  {
  }

  ghost predicate Sorted(r: seq<Occurrence>) {
    forall i, j :: 0 <= i < j < |r| ==> Before(r[i].local.date, r[j].local.date)
  }

  /** The entry the expansion must hold for day `d`: the earliest instant of its wall time. */
  function OccurrenceOn(z: Zone, start: DateTime, d: Date): Occurrence
    requires ValidTime(start) && Valid(d) && Readings(z, WallOf(DateTime(d, start.time))) != {}
  {
    var local := DateTime(d, start.time);
    Occurrence(local, Least(Readings(z, WallOf(local))))
  }

  ghost predicate Entry(z: Zone, f: Frequency, start: DateTime, end: Date, from: Date, o: Occurrence)
    requires ValidTime(start)
  {
    && Occurs(z, f, start, end, o.local.date) && !Before(o.local.date, from)
    && o == OccurrenceOn(z, start, o.local.date)
  }

  ghost predicate Exact(z: Zone, f: Frequency, start: DateTime, end: Date, from: Date, r: seq<Occurrence>)
    requires ValidTime(start)
  {
    && Sorted(r)
    && (forall o :: o in r <==> Entry(z, f, start, end, from, o))
  }

  lemma {:induction false} ExpandFrom(z: Zone, f: Frequency, start: DateTime, end: Date, cursor: Date)
    requires ValidTime(start) && Valid(end) && OnGrid(f, start.date, cursor)
    ensures Exact(z, f, start, end, cursor, Expand(z, f, start, end, cursor))
    decreases Ordinal(end) - Ordinal(cursor)
  {
    hide Readings, Ordinal, DaysIn, Leap, AddDays, NextMonth, OnGrid;
    GridValid(f, start.date, cursor);
    if !Before(end, cursor) {
      OrdinalOrders(end, cursor);
      AdvanceOrdinal(f, start.date.day, cursor);
      NextOnGrid(f, start.date, cursor);
      var head := Here(z, f, start, cursor);
      match Advance(f, start.date.day, cursor)
      case None =>
        forall o | Entry(z, f, start, end, cursor, o) ensures o in head {
          if Before(cursor, o.local.date) { NothingSkipped(f, start.date, cursor, o.local.date); }
        }
      case Some(next) =>
        ExpandFrom(z, f, start, end, next);
        OneStep(z, f, start, end, cursor, next, Expand(z, f, start, end, next));
    }
  }

  lemma GridValid(f: Frequency, start: Date, cursor: Date)
    requires Valid(start) && OnGrid(f, start, cursor)
    ensures Valid(cursor) && !Before(cursor, start)
    ensures Recurs(f, start, cursor) <==> (f.Monthly? ==> cursor.day == start.day)
  {
  }

  lemma OneStep(z: Zone, f: Frequency, start: DateTime, end: Date, cursor: Date, next: Date, rest: seq<Occurrence>)
    requires ValidTime(start) && Valid(end) && OnGrid(f, start.date, cursor) && !Before(end, cursor)
    requires Advance(f, start.date.day, cursor) == Some(next) && Exact(z, f, start, end, next, rest)
    ensures Exact(z, f, start, end, cursor, Here(z, f, start, cursor) + rest)
  {
    hide Readings, Ordinal, DaysIn, Leap, AddDays, NextMonth, OnGrid;
    GridValid(f, start.date, cursor);
    AdvanceOrdinal(f, start.date.day, cursor);
    OrdinalOrders(cursor, next);
    var head := Here(z, f, start, cursor);
    forall o ensures o in head + rest <==> Entry(z, f, start, end, cursor, o) {
      if Entry(z, f, start, end, cursor, o) && Before(cursor, o.local.date) {
        NothingSkipped(f, start.date, cursor, o.local.date);
      }
    }
    forall i, j | 0 <= i < j < |head + rest|
      ensures Before((head + rest)[i].local.date, (head + rest)[j].local.date)
    {
      assert rest[j - |head|] in rest;
    }
  }

  /** The expansion is exactly the list of all recurring local times, from the start to the
      inclusive end date, that exist in the zone, in order, each at its earliest instant. */
  lemma ExpandExact(z: Zone, f: Frequency, start: DateTime, end: Date)
    requires ValidTime(start) && Valid(end)
    ensures Exact(z, f, start, end, start.date, Expand(z, f, start, end, start.date))
  {
    ExpandFrom(z, f, start, end, start.date);
  }

  /** No two occurrences share an instant, whatever the zone does. */
  lemma InstantsDiffer(z: Zone, f: Frequency, start: DateTime, end: Date, i: nat, j: nat)
    requires ValidTime(start) && Valid(end) && i < j < |Expand(z, f, start, end, start.date)|
    ensures var r := Expand(z, f, start, end, start.date); r[i].instant != r[j].instant
  {
    hide Readings, Ordinal, Expand;
    var r := Expand(z, f, start, end, start.date);
    TwoEntries(z, f, start, end, i, j);
    DifferentReadings(z, WallOf(r[i].local), WallOf(r[j].local));
  }

  lemma TwoEntries(z: Zone, f: Frequency, start: DateTime, end: Date, i: nat, j: nat)
    requires ValidTime(start) && Valid(end) && i < j < |Expand(z, f, start, end, start.date)|
    ensures var r := Expand(z, f, start, end, start.date);
            && ValidTime(r[i].local) && ValidTime(r[j].local)
            && r[i].instant in Readings(z, WallOf(r[i].local)) && r[j].instant in Readings(z, WallOf(r[j].local))
            && WallOf(start) <= WallOf(r[i].local) && WallOf(r[i].local) + DAY <= WallOf(r[j].local)
            && WallOf(r[j].local) <= WallOf(DateTime(end, start.time))
  {
    hide Readings, Ordinal, Expand;
    ExpandExact(z, f, start, end);
    var r := Expand(z, f, start, end, start.date);
    assert r[i] in r && r[j] in r;
    var a, b := r[i].local.date, r[j].local.date;
    OrdinalOrders(a, b);
    ADayApart(Ordinal(a), Ordinal(b));
    OrdinalOrders(a, start.date);
    OrdinalOrders(end, b);
    NoEarlier(Ordinal(start.date), Ordinal(a));
    NoEarlier(Ordinal(b), Ordinal(end));
  }

  lemma NoEarlier(a: int, b: int)
    requires a <= b
    ensures a * DAY <= b * DAY
  {
  }

  /** The zone is steady from a day before the first local time, read as UTC, to a day after the
      last: every instant of the series lies in there. */
  predicate SteadyFor(z: Zone, start: DateTime, end: Date)
    requires ValidTime(start) && Valid(end)
  {
    && OffsetsInsideADay(z)
    && SteadyOver(z, WallOf(start) - EPOCH - DAY, WallOf(DateTime(end, start.time)) - EPOCH + DAY)
  }

  /** In a zone that repeats no day while the series runs, its instants increase strictly. */
  lemma InstantsIncrease(z: Zone, f: Frequency, start: DateTime, end: Date, i: nat, j: nat)
    requires ValidTime(start) && Valid(end) && i < j < |Expand(z, f, start, end, start.date)|
    requires SteadyFor(z, start, end)
    ensures var r := Expand(z, f, start, end, start.date); r[i].instant < r[j].instant
  {
    hide Readings, Ordinal, Expand, SteadyOver;
    var r := Expand(z, f, start, end, start.date);
    TwoEntries(z, f, start, end, i, j);
    var v, w := WallOf(r[i].local), WallOf(r[j].local);
    ReadingsNear(z, v, r[i].instant);
    ReadingsNear(z, w, r[j].instant);
    ReadingsInOrder(z, v, w, r[i].instant, r[j].instant,
                    WallOf(start) - EPOCH - DAY, WallOf(DateTime(end, start.time)) - EPOCH + DAY);
  }

  lemma ADayApart(a: int, b: int)
    requires a < b
    ensures a * DAY + DAY <= b * DAY
  {
  }

  /** Expansion fails only for the stated reasons: too many occurrences is judged on exactly
      the full list, and the calendar suffices for every end date before its last year. */
  lemma {:induction false} CalendarSuffices(f: Frequency, start: DateTime, end: Date, cursor: Date)
    requires ValidTime(start) && Valid(end) && Valid(cursor) && end.year < MAX_YEAR
    ensures !RunsOut(f, start, end, cursor)
    decreases Ordinal(end) - Ordinal(cursor)
  {
    hide Ordinal;
    if !Before(end, cursor) {
      OrdinalOrders(end, cursor);
      AdvanceOrdinal(f, start.date.day, cursor);
      AddDaysOrdinal(cursor, 1);
      AddDaysOrdinal(cursor, 7);
      OrdinalOrders(end, Date(MAX_YEAR, 1, 1));
      LastWeek();
      match Advance(f, start.date.day, cursor)
      case None =>
      case Some(next) => CalendarSuffices(f, start, end, next);
    }
  }

  lemma LastWeek()
    ensures Ordinal(Date(MAX_YEAR, 1, 1)) + 7 <= Ordinal(Date(MAX_YEAR, 12, 31))
  {
  }
}

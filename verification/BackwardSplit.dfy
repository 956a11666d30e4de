/** A run in which one recurrence key comes to stand twice in a lineage: a series is split into
    an earlier day, and the new part is split once more. */
module BackwardSplit {
  import opened Prelude
  import opened Storage
  import opened Calendar
  import opened Recurrence
  import opened Reconciliation
  import opened Store
  import opened Api
  import opened SeriesCreation
  import opened Split
  import opened SplitResults
  import opened Transactions
  import opened Protocol
  import opened Progress

  // ---------- what the requests generate ----------

  const UTC := Zone(0, [])
  const SETUP := Settings(map["UTC" := UTC], 100)
  const SIX := 360 * MINUTE

  function January(k: int): Date {
    Date(1970, 1, k)
  }

  /** A daily walk in January 1970, at `time` past midnight UTC. */
  function Walks(first: int, last: int, time: int): SeriesFields {
    SeriesFields(DateTime(January(first), time), "UTC", Daily, January(last), (first - 1) * DAY + time,
                 "walk", "", true, {}, {})
  }

  lemma InJanuary(k: int)
    requires 1 <= k < 31
    ensures Valid(January(k)) && Ordinal(January(k)) == EPOCH_DAY + k - 1
    ensures NextDay(January(k)) == Some(January(k + 1)) && AddDays(January(k), 1) == Some(January(k + 1))
  {
    assert AddDays(January(k + 1), 0) == Some(January(k + 1));
  }

  lemma OneReading(k: int, time: int)
    requires 1 <= k < 31 && 0 <= time < DAY
    ensures Valid(January(k)) && Readings(UTC, WallOf(DateTime(January(k), time))) == {(k - 1) * DAY + time}
  {
    hide Ordinal;
    InJanuary(k);
    assert Offsets(UTC) == {0};
  }

  lemma {:induction false} WalksFrom(first: int, last: int, time: int, k: int)
    requires 1 <= first <= k <= last + 1 < 31 && 0 <= time < DAY && first <= last
    ensures var f := Walks(first, last, time); WellTyped(f) && Valid(January(k))
    ensures var f := Walks(first, last, time); var r := Expand(UTC, Daily, f.localStart, f.endDate, January(k));
            |r| == last + 1 - k && forall i :: 0 <= i < |r| ==> r[i].instant == (k + i - 1) * DAY + time
    ensures var f := Walks(first, last, time); !RunsOut(Daily, f.localStart, f.endDate, January(k))
    decreases last + 1 - k
  {
    hide Ordinal, Readings, AddDays, Expand, RunsOut;
    var f := Walks(first, last, time);
    InJanuary(first);
    InJanuary(last);
    InJanuary(k);
    if k == last + 1 { Landed(UTC, Daily, f.localStart, f.endDate, January(k)); }
    else {
      OneReading(k, time);
      TakeOff(UTC, Daily, f.localStart, f.endDate, January(k));
      WalksFrom(first, last, time, k + 1);
    }
  }

  function OneADay(first: int, last: int, time: int): seq<Time>
    requires first <= last
  {
    seq(last + 1 - first, i => (first + i - 1) * DAY + time)
  }

  /** The request is accepted and has one occurrence a day. */
  lemma WalksGenerated(first: int, last: int, time: int)
    requires 1 <= first <= last < 30 && 0 <= time < DAY
    ensures WellTyped(Walks(first, last, time))
    ensures Generated(SETUP, Walks(first, last, time)) == Some(OneADay(first, last, time))
  {
    hide Ordinal, Readings, AddDays, Expand, RunsOut;
    InJanuary(first);
    InJanuary(last);
    WalksFrom(first, last, time, first);
    assert Instants(Expand(UTC, Daily, DateTime(January(first), time), January(last), January(first)))
        == OneADay(first, last, time);
  }

  // ---------- the run ----------

  /** Create a walk on the 2nd to the 4th of January; split off the last one and put it on the
      2nd at six; split that one off and put it on the 3rd. */
  function Requests(): seq<Step> {
    [Transact(CreateSeriesTx(SETUP, 1, Walks(2, 4, 0), DAYS), 0),
     Transact(SplitTx(SETUP, 1, SplitRequest(3 * DAY, 1, 1, Walks(2, 2, SIX)), 5, map[6 := DAY + SIX]), 0),
     Transact(SplitTx(SETUP, 5, SplitRequest(DAY + SIX, 1, 1, Walks(3, 3, 0)), 7, map[8 := 2 * DAY]), 0)]
  }

  function Cut1(): Cut {
    Cut(1, 5, 3 * DAY, Walks(2, 2, SIX), {DAY + SIX}, 0)
  }

  function Cut2(): Cut {
    Cut(5, 7, DAY + SIX, Walks(3, 3, 0), {2 * DAY}, 0)
  }

  predicate WalkAt(n: Note, s: SeriesId, at: Time) {
    n == Note("walk", "", at, true, None, None, None, None, Some(s), Some(at), None, 1)
  }

  predicate Leaf(db: Db, s: SeriesId) {
    && s in db.series && db.series[s].lineage == 1 && db.series[s].timezone == "UTC" && db.series[s].version == 1
    && db.series[s].splitBoundary.None? && db.series[s].purgedAt.None?
  }

  /** The store after the first request. */
  predicate Whole(db: Db) {
    && db.series.Keys == {1} && Leaf(db, 1) && db.series[1].predecessor.None?
    && db.notes.Keys == {2, 3, 4} && WalkAt(db.notes[2], 1, DAY) && WalkAt(db.notes[3], 1, 2 * DAY)
    && WalkAt(db.notes[4], 1, 3 * DAY)
  }

  /** The store after the second request. */
  predicate SplitOnce(db: Db) {
    && db.series.Keys == {1, 5} && Leaf(db, 5) && db.series[5].predecessor == Some(1)
    && db.series[1].lineage == 1 && db.series[1].predecessor.None?
    && db.notes.Keys == {2, 3, 4, 6} && WalkAt(db.notes[2], 1, DAY) && WalkAt(db.notes[3], 1, 2 * DAY)
    && WalkAt(db.notes[6], 5, DAY + SIX) && db.notes[4].supersededAt.Some?
  }

  lemma SameTitle()
    ensures Strip("walk") == "walk"
  {
  }

  const DAYS := map[2 := DAY, 3 := 2 * DAY, 4 := 3 * DAY]

  lemma CreatedWhole(tags: map<TagId, int>)
    requires WellTyped(Walks(2, 4, 0))
    ensures Whole(CreatedSeries(Blank(tags), 1, Walks(2, 4, 0), DAYS, 0))
  {
    hide Reconcile, Strip, WellTyped, WallOf, Ordinal, SeriesTagsFor, TemplatesFor, TagsFor;
    SameTitle();
    var f := Walks(2, 4, 0);
    var rows := NewBatch(f, 1, DAYS).rows;
    assert rows.Keys == {2, 3, 4};
    assert rows[2] == OccurrenceRow(f, 1, DAY) && rows[3] == OccurrenceRow(f, 1, 2 * DAY);
    assert rows[4] == OccurrenceRow(f, 1, 3 * DAY);
    assert CreatedSeries(Blank(tags), 1, f, DAYS, 0).notes == Blank(tags).notes + rows;
  }

  lemma Created(tags: map<TagId, int>)
    ensures WellTyped(Walks(2, 4, 0))
    ensures CreateOutcome(Blank(tags), SETUP, Walks(2, 4, 0), 0, 1, DAYS, Success(()),
                          CreatedSeries(Blank(tags), 1, Walks(2, 4, 0), DAYS, 0))
  {
    hide Strip, Generated, WellTyped, CreatedSeries;
    SameTitle();
    WalksGenerated(2, 4, 0);
    assert OneADay(2, 4, 0) == [DAY, 2 * DAY, 3 * DAY];
    DaysFill(tags);
  }

  lemma DaysFill(tags: map<TagId, int>)
    ensures Fills(Blank(tags), DAYS, Elements([DAY, 2 * DAY, 3 * DAY]))
  {
    assert DAYS[2] == DAY && DAYS[3] == 2 * DAY && DAYS[4] == 3 * DAY;
    assert Filled(DAYS, DAY) && Filled(DAYS, 2 * DAY) && Filled(DAYS, 3 * DAY);
    assert Elements([DAY, 2 * DAY, 3 * DAY]) == {DAY, 2 * DAY, 3 * DAY};
  }

  lemma FirstVacant(a: Db)
    requires Whole(a)
    ensures Affected(a, 1, 3 * DAY) == {4} && AtKey(a, 1, 3 * DAY) == {4}
    ensures Fills(a, map[6 := DAY + SIX], Vacant(a, Cut1()))
  {
    hide Affected;
    OnlyFour(a);
    assert Kept(a, Cut1()) == {};
    assert Vacant(a, Cut1()) == {DAY + SIX};
    var slots := map[6 := DAY + SIX];
    assert Filled(slots, DAY + SIX) by { assert slots[6] == DAY + SIX; }
  }

  lemma OnlyFour(a: Db)
    requires Whole(a)
    ensures Affected(a, 1, 3 * DAY) == {4}
    ensures forall n :: n in a.notes ==> !Collides(a, a.notes[n], 1, 3 * DAY, {DAY + SIX})
  {
  }

  lemma FirstSplit(a: Db)
    requires Whole(a)
    ensures WellTyped(Cut1().fields) && Acceptable(a, SETUP, Cut1(), map[6 := DAY + SIX])
    ensures SplitOutcome(a, SETUP, 1, SplitRequest(3 * DAY, 1, 1, Walks(2, 2, SIX)), 0, 5, map[6 := DAY + SIX],
                         Success(()), AfterSplit(a, SETUP, Cut1(), map[6 := DAY + SIX]))
  {
    hide Strip, Generated, WellTyped, AfterSplit, Affected, AtKey, Fills, Vacant, Collides;
    SameTitle();
    WalksGenerated(2, 2, SIX);
    assert OneADay(2, 2, SIX) == [DAY + SIX];
    assert Elements([DAY + SIX]) == {DAY + SIX};
    FirstVacant(a);
    OnlyFour(a);
  }

  lemma FirstSplitLeaves(a: Db)
    requires Whole(a) && WellTyped(Cut1().fields)
    ensures SplitOnce(AfterSplit(a, SETUP, Cut1(), map[6 := DAY + SIX]))
  {
    hide Strip, Reconcile, WellTyped, WallOf, Ordinal, Split.LastDay, ExceptionsLeft, TagsAfter, SeriesTagsFor,
         TemplatesFor, CutBatch;
    SameTitle();
    var slots := map[6 := DAY + SIX];
    FirstRows(a);
    assert AfterSplit(a, SETUP, Cut1(), slots).notes == a.notes + CutBatch(a, Cut1(), slots).rows;
  }

  lemma FirstRows(a: Db)
    requires Whole(a)
    ensures var rows := CutBatch(a, Cut1(), map[6 := DAY + SIX]).rows;
            rows.Keys == {4, 6} && rows[4].supersededAt.Some? && WalkAt(rows[6], 5, DAY + SIX)
  {
    hide CutBatch, Strip;
    SameTitle();
    assert Affected(a, 1, 3 * DAY) == {4};
    assert Kept(a, Cut1()) == {} && Superseded(a, Cut1()) == {4};
    CutRows(a, Cut1(), map[6 := DAY + SIX]);
  }

  lemma SecondVacant(b: Db)
    requires SplitOnce(b)
    ensures Affected(b, 5, DAY + SIX) == {6} && AtKey(b, 5, DAY + SIX) == {6}
    ensures Fills(b, map[8 := 2 * DAY], Vacant(b, Cut2()))
  {
    hide Affected;
    OnlySix(b);
    assert Kept(b, Cut2()) == {};
    assert Vacant(b, Cut2()) == {2 * DAY};
    var slots := map[8 := 2 * DAY];
    assert Filled(slots, 2 * DAY) by { assert slots[8] == 2 * DAY; }
  }

  lemma OnlySix(b: Db)
    requires SplitOnce(b)
    ensures Affected(b, 5, DAY + SIX) == {6}
    ensures forall n :: n in b.notes ==> !Collides(b, b.notes[n], 1, DAY + SIX, {2 * DAY})
  {
  }

  lemma SecondSplit(b: Db)
    requires SplitOnce(b)
    ensures WellTyped(Cut2().fields) && Acceptable(b, SETUP, Cut2(), map[8 := 2 * DAY])
    ensures SplitOutcome(b, SETUP, 5, SplitRequest(DAY + SIX, 1, 1, Walks(3, 3, 0)), 0, 7, map[8 := 2 * DAY],
                         Success(()), AfterSplit(b, SETUP, Cut2(), map[8 := 2 * DAY]))
  {
    hide Strip, Generated, WellTyped, AfterSplit, Affected, AtKey, Fills, Vacant, Collides;
    SameTitle();
    WalksGenerated(3, 3, 0);
    assert OneADay(3, 3, 0) == [2 * DAY];
    assert Elements([2 * DAY]) == {2 * DAY};
    SecondVacant(b);
    OnlySix(b);
  }

  lemma KeysSoFar(b: Db)
    requires SplitOnce(b)
    ensures ClashesAhead(b, Cut2()) && KeysUnique(b, 1)
  {
    assert Stands(b, 3, 1);
  }

  ghost predicate RepeatsKey(run: seq<World>) {
    |run| == 4 && Run(run, Requests()) && KeysUnique(run[2].db, 1) && !KeysUnique(run[3].db, 1)
  }

  lemma Create() returns (a: Db)
    ensures Whole(a) && Commits(Blank(map[]), a, CreateSeriesTx(SETUP, 1, Walks(2, 4, 0), DAYS), 0)
  {
    hide CreatedSeries, CreateOutcome, WellTyped;
    Created(map[]);
    CreatedWhole(map[]);
    a := CreatedSeries(Blank(map[]), 1, Walks(2, 4, 0), DAYS, 0);
  }

  lemma SplitOff(a: Db) returns (b: Db)
    requires Whole(a)
    ensures SplitOnce(b)
    ensures Commits(a, b, SplitTx(SETUP, 1, SplitRequest(3 * DAY, 1, 1, Walks(2, 2, SIX)), 5, map[6 := DAY + SIX]), 0)
  {
    hide AfterSplit, SplitOutcome, WellTyped;
    FirstSplit(a);
    FirstSplitLeaves(a);
    b := AfterSplit(a, SETUP, Cut1(), map[6 := DAY + SIX]);
  }

  lemma SplitAgain(b: Db) returns (c: Db)
    requires SplitOnce(b) && StoreInv(b)
    ensures KeysUnique(b, 1) && !KeysUnique(c, 1)
    ensures Commits(b, c, SplitTx(SETUP, 5, SplitRequest(DAY + SIX, 1, 1, Walks(3, 3, 0)), 7, map[8 := 2 * DAY]), 0)
  {
    hide AfterSplit, SplitOutcome, WellTyped, StoreInv, Acceptable, KeysUnique, ClashesAhead;
    SecondSplit(b);
    KeysSoFar(b);
    ClashRepeatsKey(b, SETUP, Cut2(), map[8 := 2 * DAY]);
    c := AfterSplit(b, SETUP, Cut2(), map[8 := 2 * DAY]);
  }

  lemma Handled(w: World, b: Db, tx: Tx, now: Time)
    requires StoreInv(w.db) && HandlerTx(tx) && Commits(w.db, b, tx, now)
    ensures Next(w, w.(db := b), Transact(tx, now)) && StoreInv(b)
  {
    hide StoreInv, Commits, Advances;
    TxKeeps(w.db, b, tx, now);
  }

  /** All three requests are accepted, and after the last one the midnight of the 3rd is the key
      of two occurrences that stand in the lineage. */
  lemma BackwardSplitRepeatsKey()
    ensures exists run :: RepeatsKey(run)
  {
    hide Whole, SplitOnce, StoreInv, Commits, Walks, KeysUnique, Run, Next;
    var w := World(Blank(map[]), multiset{}, map[], multiset{}, multiset{}, multiset{}, {});
    InitInv(w);
    var a := Create();
    Handled(w, a, Requests()[0].tx, 0);
    var b := SplitOff(a);
    Handled(w.(db := a), b, Requests()[1].tx, 0);
    var c := SplitAgain(b);
    Handled(w.(db := b), c, Requests()[2].tx, 0);
    var run := [w, w.(db := a), w.(db := b), w.(db := c)];
    IsRun(run);
    assert RepeatsKey(run);
  }

  lemma IsRun(run: seq<World>)
    requires |run| == 4 && Init(run[0])
    requires Next(run[0], run[1], Requests()[0]) && Next(run[1], run[2], Requests()[1])
    requires Next(run[2], run[3], Requests()[2])
    ensures Run(run, Requests())
  {
    hide Next, Init;
  }
}

/** The recurrence keys of a lineage, segment by segment: ordered intervals as long as every
    split starts at or after the occurrence it replaces. */
module Segments {
  import opened Prelude
  import opened Storage
  import opened Reconciliation
  import opened Invariants
  import opened Lineage
  import opened Store
  import opened Api
  import opened SeriesCreation
  import opened Split
  import opened SplitResults

  predicate StandsIn(db: Db, n: NoteId, s: SeriesId) {
    Visible(db, n) && db.notes[n].seriesId == Some(s) && db.notes[n].recurrenceKey.Some?
  }

  /** The boundary between a closed series and its successor parts their keys. */
  ghost predicate Parted(db: Db, x: SeriesId, s: SeriesId)
    requires Follows(db.series, x, s)
  {
    && s in db.series && db.series[s].splitBoundary.Some?
    && var b := db.series[s].splitBoundary.value;
    && (forall n :: StandsIn(db, n, s) ==> db.notes[n].recurrenceKey.value < b)
    && (forall n :: StandsIn(db, n, x) ==> db.notes[n].recurrenceKey.value >= b)
    && (db.series[x].splitBoundary.Some? ==> db.series[x].splitBoundary.value >= b)
  }

  ghost predicate OrderedSegments(db: Db) {
    forall x, s | Follows(db.series, x, s) :: Parted(db, x, s)
  }

  /** The first new occurrence is at or after the one selected. */
  ghost predicate Forward(c: Cut) {
    forall t :: t in c.instants ==> t >= c.key
  }

  /** A step that makes no occurrence stand where it did not, and links no series. */
  ghost predicate KeepsPlaces(a: Db, b: Db) {
    && MarksNothing(a, b) && a.series.Keys <= b.series.Keys
    && (forall s :: s in b.series ==>
          if s in a.series then SameLinks(a.series[s], b.series[s]) else b.series[s].predecessor.None?)
    && (forall n, s :: s in a.series && StandsIn(b, n, s) ==>
          StandsIn(a, n, s) && b.notes[n].recurrenceKey == a.notes[n].recurrenceKey)
  }

  lemma PlacesKeepOrder(a: Db, b: Db)
    requires OrderedSegments(a) && LineageInv(a.series) && KeepsPlaces(a, b)
    ensures OrderedSegments(b)
  {
    forall x, s | Follows(b.series, x, s) ensures Parted(b, x, s) {
      assert Linked(a.series, x);
      assert Follows(a.series, x, s) && Parted(a, x, s);
    }
  }

  /** A forward split appends one more interval. */
  lemma ForwardKeepsOrder(db: Db, e: Settings, c: Cut, slots: map<NoteId, Time>)
    requires StoreInv(db) && Acceptable(db, e, c, slots) && OrderedSegments(db) && Forward(c)
    ensures OrderedSegments(AfterSplit(db, e, c, slots))
  {
    hide StoreInv, AfterSplit, Fills, Affected, Vacant, AtKey, Collides;
    var after := AfterSplit(db, e, c, slots);
    forall x, s | Follows(after.series, x, s) ensures Parted(after, x, s) {
      PartedAfter(db, e, c, slots, x, s);
    }
  }

  /** Where an occurrence stands after the split. */
  lemma StandsInAfter(db: Db, e: Settings, c: Cut, slots: map<NoteId, Time>, n: NoteId, s: SeriesId)
    requires StoreInv(db) && Acceptable(db, e, c, slots) && StandsIn(AfterSplit(db, e, c, slots), n, s)
    ensures var after := AfterSplit(db, e, c, slots);
            if s == c.successor then after.notes[n].recurrenceKey.value in c.instants
            else StandsIn(db, n, s) && after.notes[n] == db.notes[n]
                 && (s == c.s ==> db.notes[n].recurrenceKey.value < c.key)
  {
    hide Reconciliation.Reconcile, CutBatch, ReminderInv, TrashInv, RedactionInv, Collides, ExceptionsLeft, TagsAfter,
         Strip, AtKey, ClosedRow, SeriesRow;
    CutRows(db, c, slots);
    if n in db.notes { assert Slotted(db, n); }
  }

  lemma LinksAfter(db: Db, e: Settings, c: Cut, slots: map<NoteId, Time>)
    requires StoreInv(db) && Acceptable(db, e, c, slots)
    ensures var t := AfterSplit(db, e, c, slots).series;
            && t.Keys == db.series.Keys + {c.successor} && t[c.successor].splitBoundary.None?
            && (forall s :: s in db.series ==>
                  t[s].splitBoundary == if s == c.s then Some(c.key) else db.series[s].splitBoundary)
            && (forall x, s :: Follows(t, x, s) <==> Follows(db.series, x, s) || (x == c.successor && s == c.s))
  {
    hide StoreInv, Fills, Vacant, Collides, Reconciliation.Reconcile, CutBatch, ExceptionsLeft, TagsAfter, Strip,
         LastDay, AtKey, Affected;
  }

  lemma PartedAfter(db: Db, e: Settings, c: Cut, slots: map<NoteId, Time>, x: SeriesId, s: SeriesId)
    requires StoreInv(db) && Acceptable(db, e, c, slots) && OrderedSegments(db) && Forward(c)
    requires Follows(AfterSplit(db, e, c, slots).series, x, s)
    ensures Parted(AfterSplit(db, e, c, slots), x, s)
  {
    hide StoreInv, Fills, Vacant, Collides, AfterSplit, Affected;
    var after := AfterSplit(db, e, c, slots);
    LinksAfter(db, e, c, slots);
    NoFollowerYet(db, c.successor, x);
    if x == c.successor { NewBoundary(db, e, c, slots); }
    else {
      assert Follows(db.series, x, s) && Parted(db, x, s);
      forall n | StandsIn(after, n, s) ensures StandsIn(db, n, s) && after.notes[n] == db.notes[n] {
        StandsInAfter(db, e, c, slots, n, s);
      }
      forall n | StandsIn(after, n, x) ensures StandsIn(db, n, x) && after.notes[n] == db.notes[n] {
        StandsInAfter(db, e, c, slots, n, x);
      }
      if x == c.s { SelectedStands(db, c); }
    }
  }

  lemma NewBoundary(db: Db, e: Settings, c: Cut, slots: map<NoteId, Time>)
    requires StoreInv(db) && Acceptable(db, e, c, slots) && Forward(c)
    requires Follows(AfterSplit(db, e, c, slots).series, c.successor, c.s)
    ensures Parted(AfterSplit(db, e, c, slots), c.successor, c.s)
  {
    hide StoreInv, Fills, Vacant, Collides, AfterSplit, Affected, AtKey;
    var after := AfterSplit(db, e, c, slots);
    LinksAfter(db, e, c, slots);
    forall n | StandsIn(after, n, c.s) ensures after.notes[n].recurrenceKey.value < c.key {
      StandsInAfter(db, e, c, slots, n, c.s);
    }
    forall n | StandsIn(after, n, c.successor) ensures after.notes[n].recurrenceKey.value >= c.key {
      StandsInAfter(db, e, c, slots, n, c.successor);
    }
  }

  lemma SelectedStands(db: Db, c: Cut)
    requires AtKey(db, c.s, c.key) != {}
    ensures exists n :: StandsIn(db, n, c.s) && db.notes[n].recurrenceKey.value == c.key
  {
    NonEmpty(AtKey(db, c.s, c.key));
    var n :| n in AtKey(db, c.s, c.key);
    assert StandsIn(db, n, c.s);
  }

  lemma NoFollowerYet(db: Db, fresh_: SeriesId, x: SeriesId)
    requires StoreInv(db) && fresh_ !in db.series
    ensures !Follows(db.series, x, fresh_)
  {
  }

  // ---------- disjoint intervals ----------

  lemma {:induction false} AncestorBounds(db: Db, s: SeriesId, k: nat)
    requires OrderedSegments(db) && LineageInv(db.series) && s in db.series && k > 0 && Up(db.series, s, k).Some?
    ensures var a := Up(db.series, s, k).value;
            && a in db.series && db.series[a].splitBoundary.Some?
            && var b := db.series[a].splitBoundary.value;
            && (forall n :: StandsIn(db, n, a) ==> db.notes[n].recurrenceKey.value < b)
            && (forall n :: StandsIn(db, n, s) ==> db.notes[n].recurrenceKey.value >= b)
            && (db.series[s].splitBoundary.Some? ==> db.series[s].splitBoundary.value >= b)
    decreases k
  {
    hide LineageInv;
    var p := db.series[s].predecessor.value;
    assert Follows(db.series, s, p) && Parted(db, s, p);
    if k > 1 { AncestorBounds(db, p, k - 1); }
  }

  /** When every split was forward, the keys that stand in an earlier segment of a lineage all
      lie below those of a later one, so no key repeats in the lineage. */
  lemma SegmentsAreDisjoint(db: Db, lineage: SeriesId)
    requires StoreInv(db) && OrderedSegments(db)
    ensures KeysUnique(db, lineage)
    ensures forall m, n, s, k: nat | k > 0 && s in db.series && Up(db.series, s, k).Some?
              && StandsIn(db, m, Up(db.series, s, k).value) && StandsIn(db, n, s) ::
              db.notes[m].recurrenceKey.value < db.notes[n].recurrenceKey.value
  {
    hide ReminderInv, TrashInv, RedactionInv, OrderedSegments;
    forall m, n, s, k: nat | k > 0 && s in db.series && Up(db.series, s, k).Some?
      && StandsIn(db, m, Up(db.series, s, k).value) && StandsIn(db, n, s)
      ensures db.notes[m].recurrenceKey.value < db.notes[n].recurrenceKey.value
    {
      AncestorBounds(db, s, k);
    }
    forall m, n | Stands(db, m, lineage) && Stands(db, n, lineage)
                  && db.notes[m].recurrenceKey == db.notes[n].recurrenceKey ensures m == n
    {
      var s, u := db.notes[m].seriesId.value, db.notes[n].seriesId.value;
      LineageIsPath(db.series, s, u);
      var k: nat :| Up(db.series, s, k) == Some(u) || Up(db.series, u, k) == Some(s);
      assert StandsIn(db, m, s) && StandsIn(db, n, u);
      if k == 0 { assert SameSlot(db.notes[m], db.notes[n]); }
    }
  }
}

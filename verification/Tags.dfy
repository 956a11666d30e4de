/** backend/app/api/router.py, delete_tag: a tag goes, with every use of it. */
module Tags {
  import opened Prelude
  import opened Storage
  import opened Reconciliation
  import opened Progress
  import opened Invariants
  import opened Lineage
  import opened Store
  import opened Api

  function Tagged(db: Db, tag: TagId): set<NoteId> {
    set t | t in db.noteTags && t.tag == tag && t.note in db.notes :: t.note
  }

  function TaggedSeries(db: Db, tag: TagId): set<SeriesId> {
    set t | t in db.seriesTags && t.tag == tag && t.series in db.series :: t.series
  }

  function SeriesEvents(series: map<SeriesId, Series>, order: seq<SeriesId>): seq<Event>
    requires forall i :: 0 <= i < |order| ==> order[i] in series
  {
    seq(|order|, i requires 0 <= i < |order| => Event(SeriesUpdated, SeriesEntity(order[i]), series[order[i]].version))
  }

  function Untagged(db: Db, tag: TagId): Db {
    db.(notes := map n | n in db.notes ::
          if n in Tagged(db, tag) then db.notes[n].(version := db.notes[n].version + 1) else db.notes[n],
        series := map s | s in db.series ::
          if s in TaggedSeries(db, tag) then db.series[s].(version := db.series[s].version + 1) else db.series[s],
        noteTags := (set t | t in db.noteTags && t.tag != tag),
        seriesTags := (set t | t in db.seriesTags && t.tag != tag),
        tags := db.tags - {tag})
  }

  /** `order` is the order in which the series rows are locked and announced. */
  function DeletedTag(db: Db, tag: TagId, order: seq<SeriesId>): Db
    requires tag in db.tags && Elements(order) == TaggedSeries(db, tag)
  {
    var a := Untagged(db, tag);
    assert forall i :: 0 <= i < |order| ==> order[i] in Elements(order);
    a.(outbox := a.outbox + SeriesEvents(a.series, order) + [Event(TagDeleted, TagEntity(tag), db.tags[tag])])
  }

  /** Deleting a tag rewrites every note and series that carries it, and none of them is purged:
      the immutability triggers never fire. */
  lemma TaggedAreUnpurged(db: Db, tag: TagId)
    requires RedactionInv(db)
    ensures forall n :: n in Tagged(db, tag) ==> !Purged(db, n)
    ensures forall s :: s in TaggedSeries(db, tag) ==> !SeriesPurged(db, s)
  {
  }

  lemma UntaggedFrozen(db: Db, tag: TagId, order: seq<SeriesId>)
    requires RedactionInv(db) && tag in db.tags && Elements(order) == TaggedSeries(db, tag)
    ensures var c := DeletedTag(db, tag, order); NotesFrozen(db, c) && SeriesFrozen(db, c)
  {
    hide RedactionInv, Tagged, TaggedSeries, SeriesEvents;
    TaggedAreUnpurged(db, tag);
  }

  lemma UntaggedSlots(db: Db, tag: TagId)
    requires SlotInv(db) && LineageInv(db.series)
    ensures SlotInv(Untagged(db, tag)) && LineageInv(Untagged(db, tag).series)
  {
    hide LineageInv, Tagged, TaggedSeries;
    var c := Untagged(db, tag);
    SameLinksKeepLineage(db.series, c.series);
    forall n | n in c.notes ensures Slotted(c, n) { assert Slotted(db, n); }
    forall m, n | m in c.notes && n in c.notes && SameSlot(c.notes[m], c.notes[n]) ensures m == n {
      assert SameSlot(db.notes[m], db.notes[n]);
    }
  }

  lemma DeleteTagKeeps(db: Db, tag: TagId, order: seq<SeriesId>)
    requires StoreInv(db) && tag in db.tags && Elements(order) == TaggedSeries(db, tag)
    ensures Keeps(db, DeletedTag(db, tag, order)) && DeletedTag(db, tag, order).deliveries == db.deliveries
  {
    hide ReminderInv, SlotInv, LineageInv, RedactionInv, NotesFrozen, SeriesFrozen, Reconcile, TrashInv, Advances,
         SeriesEvents, Tagged, TaggedSeries;
    var c := DeletedTag(db, tag, order);
    UntaggedFrozen(db, tag, order);
    UntaggedSlots(db, tag);
    var notes := c.notes;
    Unchanged(db.(notes := notes), NO_PLAN, 0);
    assert PlanCovers(db, notes, NO_PLAN);
    SlotsOf(Untagged(db, tag), c);
    EditKeeps(db, notes, NO_PLAN, 0, c);
  }

  lemma SlotsOf(a: Db, c: Db)
    requires SlotInv(a) && c.notes == a.notes && c.series == a.series
    ensures SlotInv(c)
  {
  }

  /** The tag is gone from the store: nothing carries it, what carried it has a later version, each
      series that did is announced, and nothing else changed. */
  ghost predicate TagGone(db: Db, after: Db, tag: TagId) {
    && (forall t :: t in after.tags <==> t in db.tags && t != tag)
    && (forall t :: t in after.tags ==> after.tags[t] == db.tags[t])
    && (forall t :: t in after.noteTags <==> t in db.noteTags && t.tag != tag)
    && (forall t :: t in after.seriesTags <==> t in db.seriesTags && t.tag != tag)
    && after.notes.Keys == db.notes.Keys && after.series.Keys == db.series.Keys
    && (forall n :: n in db.notes ==>
          after.notes[n] == if NoteTag(n, tag) in db.noteTags then db.notes[n].(version := db.notes[n].version + 1)
                            else db.notes[n])
    && (forall s :: s in db.series ==>
          after.series[s] == if SeriesTag(s, tag) in db.seriesTags
                             then db.series[s].(version := db.series[s].version + 1) else db.series[s])
    && db.outbox <= after.outbox && tag in db.tags
    && (forall s :: s in db.series && SeriesTag(s, tag) in db.seriesTags ==>
          Event(SeriesUpdated, SeriesEntity(s), after.series[s].version) in after.outbox[|db.outbox|..])
    && after.outbox != [] && after.outbox[|after.outbox| - 1] == Event(TagDeleted, TagEntity(tag), db.tags[tag])
    && after == db.(tags := after.tags, noteTags := after.noteTags, seriesTags := after.seriesTags,
                    notes := after.notes, series := after.series, outbox := after.outbox)
  }

  lemma DeletedTagMeans(db: Db, tag: TagId, order: seq<SeriesId>)
    requires tag in db.tags && Elements(order) == TaggedSeries(db, tag)
    ensures TagGone(db, DeletedTag(db, tag, order), tag)
  {
    hide SeriesEvents;
    var after := DeletedTag(db, tag, order);
    forall n | n in db.notes ensures n in Tagged(db, tag) <==> NoteTag(n, tag) in db.noteTags {
      if NoteTag(n, tag) in db.noteTags { var t := NoteTag(n, tag); assert t in db.noteTags && t.note == n; }
    }
    forall s | s in db.series ensures s in TaggedSeries(db, tag) <==> SeriesTag(s, tag) in db.seriesTags {
      if SeriesTag(s, tag) in db.seriesTags { var t := SeriesTag(s, tag); assert t in db.seriesTags && t.series == s; }
    }
    assert forall i :: 0 <= i < |order| ==> order[i] in Elements(order);
    Announced(Untagged(db, tag).series, order);
    var events := SeriesEvents(Untagged(db, tag).series, order);
    var last := [Event(TagDeleted, TagEntity(tag), db.tags[tag])];
    assert after.outbox == db.outbox + events + last;
    assert after.outbox[|db.outbox|..] == events + last;
    forall s | s in db.series && SeriesTag(s, tag) in db.seriesTags
      ensures Event(SeriesUpdated, SeriesEntity(s), after.series[s].version) in after.outbox[|db.outbox|..]
    {
      assert s in Elements(order);
    }
  }

  lemma Announced(series: map<SeriesId, Series>, order: seq<SeriesId>)
    requires forall i :: 0 <= i < |order| ==> order[i] in series
    ensures forall s :: s in order ==>
              s in series && Event(SeriesUpdated, SeriesEntity(s), series[s].version) in SeriesEvents(series, order)
  {
    forall s | s in order
      ensures s in series && Event(SeriesUpdated, SeriesEntity(s), series[s].version) in SeriesEvents(series, order)
    {
      var i :| 0 <= i < |order| && order[i] == s;
      assert SeriesEvents(series, order)[i] == Event(SeriesUpdated, SeriesEntity(s), series[s].version);
    }
  }

  // lines 213-268
  method DeleteTagTx(session: Session, tag: TagId, version: int)
    returns (r: Result<(), ApiError>, ghost order: seq<SeriesId>)
    modifies session`db
    ensures if tag !in old(session.db).tags then r == Failure(NotFound) && session.db == old(session.db)
            else if old(session.db).tags[tag] != version
            then r == Failure(VersionConflict) && session.db == old(session.db)
            else r.Success? && Elements(order) == TaggedSeries(old(session.db), tag) && Distinct(order)
                 && session.db == DeletedTag(old(session.db), tag, order)
  {
    hide SeriesEvents;
    order := [];
    var db := session.db;
    if tag !in db.tags { r := Failure(NotFound); return; }
    if db.tags[tag] != version { r := Failure(VersionConflict); return; }
    var series := TaggedSeries(db, tag);
    var notes := Tagged(db, tag);
    var rows := Listing(series);
    order := rows;
    assert forall i :: 0 <= i < |rows| ==> rows[i] in Elements(rows);
    session.db := db.(
      noteTags := (set t | t in db.noteTags && t.tag != tag),
      seriesTags := (set t | t in db.seriesTags && t.tag != tag),
      series := map s | s in db.series ::
        if s in series then db.series[s].(version := db.series[s].version + 1) else db.series[s],
      notes := map n | n in db.notes ::
        if n in notes then db.notes[n].(version := db.notes[n].version + 1) else db.notes[n],
      tags := db.tags - {tag});
    assert session.db.series == Untagged(db, tag).series;
    assert session.db.notes == Untagged(db, tag).notes;
    AnnounceSeries(session, rows);
    session.db := session.db.(outbox := session.db.outbox + [Event(TagDeleted, TagEntity(tag), version)]);
    r := Success(());
  }

  // for series in series_rows: add_event
  method AnnounceSeries(session: Session, rows: seq<SeriesId>)
    requires forall i :: 0 <= i < |rows| ==> rows[i] in session.db.series
    modifies session`db
    ensures session.db
         == old(session.db).(outbox := old(session.db).outbox + SeriesEvents(old(session.db).series, rows))
  {
    ghost var was := session.db;
    for i := 0 to |rows|
      invariant session.db == was.(outbox := was.outbox + SeriesEvents(was.series, rows[..i]))
    {
      var row := session.db.series[rows[i]];
      session.db := session.db.(
        outbox := session.db.outbox + [Event(SeriesUpdated, SeriesEntity(rows[i]), row.version)]);
      assert SeriesEvents(was.series, rows[..i + 1])
          == SeriesEvents(was.series, rows[..i]) + [Event(SeriesUpdated, SeriesEntity(rows[i]), row.version)];
    }
    assert rows[..|rows|] == rows;
  }
}

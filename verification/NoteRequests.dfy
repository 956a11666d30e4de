/** What an accepted request about one note means, in terms of the request and the store after
    it. */
module NoteRequests {
  import opened Prelude
  import opened Storage
  import opened Reconciliation
  import opened Invariants
  import opened Api
  import opened Notes
  import opened NoteHandlers
  import opened SaveResults

  // ---------- what a request must name ----------

  /** The note is there, neither replaced nor redacted, at the version named; and if it recurs,
      the version of its series is named as well. */
  predicate Current(db: Db, id: NoteId, version: int, seriesVersion: Option<int>) {
    && id in db.notes && db.notes[id].purgedAt.None? && db.notes[id].supersededAt.None?
    && db.notes[id].version == version
    && (Recurs(db, id) ==> seriesVersion == Some(db.series[db.notes[id].seriesId.value].version))
  }

  predicate Recurs(db: Db, id: NoteId)
    requires id in db.notes
  {
    db.notes[id].seriesId.Some? && db.notes[id].seriesId.value in db.series
  }

  predicate Writable(db: Db, f: NoteFields) {
    Strip(f.title) != "" && f.tags <= db.tags.Keys
  }

  // ---------- what it leaves ----------

  /** The writer of a recurring note bumps the version of its series, and no other series is
      touched. */
  predicate SeriesBumped(db: Db, after: Db, id: NoteId)
    requires id in db.notes
  {
    after.series == if Recurs(db, id)
                    then var s := db.notes[id].seriesId.value;
                         db.series[s := db.series[s].(version := db.series[s].version + 1)]
                    else db.series
  }

  predicate SameNoteRow(db: Db, after: Db, n: NoteId) {
    (n in after.notes <==> n in db.notes) && (n in db.notes ==> after.notes[n] == db.notes[n])
  }

  /** No other note, its tags, rules or deliveries changed. */
  ghost predicate OthersAsTheyWere(db: Db, after: Db, id: NoteId) {
    && (forall n :: n != id ==> SameNoteRow(db, after, n))
    && (forall n :: n != id ==> TagsOf(after, n) == TagsOf(db, n) && EnabledOffsets(after, n) == EnabledOffsets(db, n))
    && (forall dk: DeliveryKey :: dk.rule.note != id ==>
          (dk in after.deliveries <==> dk in db.deliveries)
          && (dk in db.deliveries ==> after.deliveries[dk] == db.deliveries[dk]))
    && after.notifications == db.notifications && after.actions == db.actions && after.members == db.members
  }

  function OverriddenBy<T>(value: Option<T>, default_: T): T {
    if value.Some? then value.value else default_
  }

  /** The exception of a recurring note holds exactly its differences from the template: laid over
      the template they give the note back, and none repeats what the template says anyway. */
  ghost predicate ExceptionDescribes(after: Db, id: NoteId, x: OccurrenceException)
    requires id in after.notes && Recurs(after, id) && after.notes[id].recurrenceKey.Some?
  {
    var n, s := after.notes[id], after.series[after.notes[id].seriesId.value];
    var tags, offsets := SeriesTagsOf(after, n.seriesId.value), TemplateOffsets(after, n.seriesId.value);
    var o := x.overridden;
    && OverriddenBy(o.title, s.title) == n.title && OverriddenBy(o.body, s.body) == n.body
    && OverriddenBy(o.startsAt, n.recurrenceKey.value) == n.startsAt && OverriddenBy(o.active, s.active) == n.active
    && OverriddenBy(o.tags, tags) == TagsOf(after, id) && OverriddenBy(o.offsets, offsets) == EnabledOffsets(after, id)
    && o.title != Some(s.title) && o.body != Some(s.body) && o.startsAt != n.recurrenceKey && o.active != Some(s.active)
    && o.tags != Some(tags) && o.offsets != Some(offsets)
  }

  /** The exception bookkeeping of a write: a recurring note's own exception describes it, with
      the cancelled mark as given or as it was, and no other exception changed. */
  ghost predicate ExceptionWritten(db: Db, after: Db, id: NoteId, cancelled: Option<bool>)
    requires id in after.notes
  {
    if !Recurs(after, id) || after.notes[id].recurrenceKey.None? then after.exceptions == db.exceptions
    else
      var k := SlotKey(after.notes[id].seriesId.value, after.notes[id].recurrenceKey.value);
      && k in after.exceptions && ExceptionDescribes(after, id, after.exceptions[k])
      && after.exceptions[k].cancelled
         == (if cancelled.Some? then cancelled.value else k in db.exceptions && db.exceptions[k].cancelled)
      && after.exceptions == db.exceptions[k := after.exceptions[k]]
  }

  lemma ExceptionSet(db: Db, id: NoteId, cancelled: Option<bool>)
    requires id in db.notes
    ensures ExceptionWritten(db, SetException(db, id, cancelled), id, cancelled)
  {
    hide TagsOf, EnabledOffsets, SeriesTagsOf, TemplateOffsets;
    var after := SetException(db, id, cancelled);
    SameReads(db, after, id);
  }

  lemma SameReads(a: Db, b: Db, id: NoteId)
    requires b == a.(exceptions := b.exceptions)
    ensures TagsOf(b, id) == TagsOf(a, id) && EnabledOffsets(b, id) == EnabledOffsets(a, id)
    ensures forall s :: SeriesTagsOf(b, s) == SeriesTagsOf(a, s) && TemplateOffsets(b, s) == TemplateOffsets(a, s)
  {
  }

  // ---------- one write, whichever the request ----------

  /** What every write of a note leaves: the row, the tags and the reminders it asks for, its
      exception and one event, and everything else as it was. */
  ghost predicate SavedAs(db: Db, after: Db, id: NoteId, row: Note, tags: set<TagId>, offsets: set<int>,
                          cancelled: Option<bool>, event: EventType)
  {
    && id in after.notes && after.notes[id] == row
    && TagsOf(after, id) == tags && EnabledOffsets(after, id) == offsets
    && OthersAsTheyWere(db, after, id) && ExceptionWritten(db, after, id, cancelled)
    && after.outbox == db.outbox + [Event(event, NoteEntity(id), row.version)]
    && after.seriesTags == db.seriesTags && after.templates == db.templates && after.tags == db.tags
  }

  lemma SaveLeaves(db: Db, id: NoteId, e: Edit, now: Time)
    ensures var after := Save(db, id, e, now);
            && SavedAs(db, after, id, e.row, if e.tags.Some? then e.tags.value else TagsOf(db, id), e.offsets,
                       e.cancelled, e.event)
            && after.series == db.series
  {
    hide Reconcile, SetException, WithTags, EnabledOffsets, TagsOf, ExceptionWritten;
    SaveTakesEffect(db, id, e, now);
    var mid := Reconcile(Written(db, id, e), OneNote(id, e.offsets, e.moved), now);
    var after := Save(db, id, e, now);
    ExceptionSet(mid, id, e.cancelled);
    SameException(db, mid, SetException(mid, id, e.cancelled), after, id, e.cancelled);
    forall n | n != id ensures SameNoteRow(db, after, n) {
      assert Row(after, n) == Row(db, n);
    }
  }

  lemma SameException(db: Db, mid: Db, set_: Db, after: Db, id: NoteId, cancelled: Option<bool>)
    requires id in set_.notes && ExceptionWritten(mid, set_, id, cancelled) && mid.exceptions == db.exceptions
    requires after == set_.(outbox := after.outbox)
    ensures ExceptionWritten(db, after, id, cancelled)
  {
    SameTables(set_, after, id);
  }

  lemma SameTables(a: Db, b: Db, id: NoteId)
    requires b == a.(outbox := b.outbox)
    ensures TagsOf(b, id) == TagsOf(a, id) && EnabledOffsets(b, id) == EnabledOffsets(a, id)
    ensures forall s :: SeriesTagsOf(b, s) == SeriesTagsOf(a, s) && TemplateOffsets(b, s) == TemplateOffsets(a, s)
  {
  }

  lemma LockMeans(db: Db, id: NoteId, version: int, seriesVersion: Option<int>)
    requires id in db.notes && db.notes[id].purgedAt.None? && db.notes[id].supersededAt.None?
    ensures Current(db, id, version, seriesVersion) <==>
              db.notes[id].version == version && LockSeries(db, db.notes[id], seriesVersion).Success?
    ensures var locked := LockSeries(db, db.notes[id], seriesVersion);
            locked.Success? ==>
              locked.value == db.(series := locked.value.series) && SeriesBumped(db, locked.value, id)
  {
  }

  lemma AfterLock(db: Db, locked: Db, after: Db, id: NoteId, row: Note, tags: set<TagId>, offsets: set<int>,
                  cancelled: Option<bool>, event: EventType)
    requires locked == db.(series := locked.series) && SavedAs(locked, after, id, row, tags, offsets, cancelled, event)
    ensures SavedAs(db, after, id, row, tags, offsets, cancelled, event)
  {
    hide ExceptionDescribes;
    LockReads(db, locked);
    forall n | n != id ensures SameNoteRow(db, after, n) {
      assert SameNoteRow(locked, after, n);
    }
  }

  lemma LockReads(a: Db, b: Db)
    requires b == a.(series := b.series)
    ensures forall n :: TagsOf(b, n) == TagsOf(a, n) && EnabledOffsets(b, n) == EnabledOffsets(a, n)
  {
  }

  // ---------- the four requests ----------

  lemma CreateMeans(db: Db, id: NoteId, f: NoteFields, now: Time)
    ensures CreateNote(db, id, f, now).Success? <==> Writable(db, f)
    ensures var r := CreateNote(db, id, f, now);
            r.Success? ==>
              && SavedAs(db, r.value, id,
                         Note(Strip(f.title), f.body, f.startsAt, f.active, None, None, None, None, None, None, None,
                              1),
                         f.tags, f.offsets, None, NoteCreated)
              && r.value.series == db.series
  {
    hide Save, Strip, SavedAs;
    var row := Note(Strip(f.title), f.body, f.startsAt, f.active, None, None, None, None, None, None, None, 1);
    SaveLeaves(db, id, Edit(row, Some(f.tags), f.offsets, false, None, NoteCreated), now);
  }

  lemma UpdateMeans(db: Db, id: NoteId, version: int, seriesVersion: Option<int>, f: NoteFields, now: Time)
    ensures UpdateNote(db, id, version, seriesVersion, f, now).Success? <==>
              Current(db, id, version, seriesVersion) && db.notes[id].deletedAt.None? && Writable(db, f)
    ensures var r := UpdateNote(db, id, version, seriesVersion, f, now);
            r.Success? ==>
              && SavedAs(db, r.value, id,
                         db.notes[id].(title := Strip(f.title), body := f.body, startsAt := f.startsAt,
                                       active := f.active, version := db.notes[id].version + 1),
                         f.tags, f.offsets, None, NoteUpdated)
              && SeriesBumped(db, r.value, id)
  {
    hide Save, Strip, SavedAs, LockSeries, SeriesBumped, Current;
    if Visible(db, id) {
      LockMeans(db, id, version, seriesVersion);
      var n := db.notes[id];
      if LockSeries(db, n, seriesVersion).Success? {
        var locked := LockSeries(db, n, seriesVersion).value;
        var row := n.(title := Strip(f.title), body := f.body, startsAt := f.startsAt, active := f.active,
                      version := n.version + 1);
        var e := Edit(row, Some(f.tags), f.offsets, n.startsAt != f.startsAt, None, NoteUpdated);
        SaveLeaves(locked, id, e, now);
        AfterLock(db, locked, Save(locked, id, e, now), id, row, f.tags, f.offsets, None, NoteUpdated);
        SameBump(db, locked, Save(locked, id, e, now), id);
      }
    } else { NotCurrent(db, id, version, seriesVersion); }
  }

  lemma SameBump(db: Db, a: Db, b: Db, id: NoteId)
    requires id in db.notes && SeriesBumped(db, a, id) && b.series == a.series
    ensures SeriesBumped(db, b, id)
  {
  }

  lemma NotCurrent(db: Db, id: NoteId, version: int, seriesVersion: Option<int>)
    requires !Visible(db, id)
    ensures !Current(db, id, version, seriesVersion)
  {
  }

  lemma DeleteMeans(db: Db, id: NoteId, version: int, seriesVersion: Option<int>, now: Time)
    ensures DeleteNote(db, id, version, seriesVersion, now).Success? <==> Current(db, id, version, seriesVersion)
    ensures var r := DeleteNote(db, id, version, seriesVersion, now);
            r.Success? ==>
              && SeriesBumped(db, r.value, id)
              && (db.notes[id].deletedAt.Some? ==> r.value == db.(series := r.value.series))
              && (db.notes[id].deletedAt.None? ==>
                    SavedAs(db, r.value, id, db.notes[id].(deletedAt := Some(now), version := db.notes[id].version + 1),
                            TagsOf(db, id), EnabledOffsets(db, id), Some(true), NoteDeleted))
  {
    hide Save, SavedAs, LockSeries, SeriesBumped, Current, TagsOf, EnabledOffsets;
    if Visible(db, id) {
      LockMeans(db, id, version, seriesVersion);
      var n := db.notes[id];
      if LockSeries(db, n, seriesVersion).Success? {
        var locked := LockSeries(db, n, seriesVersion).value;
        LockReads(db, locked);
        var row := n.(deletedAt := Some(now), version := n.version + 1);
        var e := Edit(row, None, EnabledOffsets(db, id), false, Some(true), NoteDeleted);
        SaveLeaves(locked, id, e, now);
        AfterLock(db, locked, Save(locked, id, e, now), id, row, TagsOf(db, id), EnabledOffsets(db, id), Some(true),
                  NoteDeleted);
        SameBump(db, locked, Save(locked, id, e, now), id);
      }
    } else { NotCurrent(db, id, version, seriesVersion); }
  }

  lemma RestoreMeans(db: Db, id: NoteId, version: int, seriesVersion: Option<int>, now: Time)
    ensures RestoreNote(db, id, version, seriesVersion, now).Success? <==>
              Current(db, id, version, seriesVersion) && db.notes[id].deletedAt.Some?
              && now < db.notes[id].deletedAt.value + RETENTION
    ensures var r := RestoreNote(db, id, version, seriesVersion, now);
            r.Success? ==>
              && SeriesBumped(db, r.value, id)
              && SavedAs(db, r.value, id, db.notes[id].(deletedAt := None, version := db.notes[id].version + 1),
                         TagsOf(db, id), EnabledOffsets(db, id), Some(false), NoteRestored)
  {
    hide Save, SavedAs, LockSeries, SeriesBumped, Current, TagsOf, EnabledOffsets;
    if Visible(db, id) {
      LockMeans(db, id, version, seriesVersion);
      var n := db.notes[id];
      if LockSeries(db, n, seriesVersion).Success? {
        var locked := LockSeries(db, n, seriesVersion).value;
        LockReads(db, locked);
        var row := n.(deletedAt := None, version := n.version + 1);
        var e := Edit(row, None, EnabledOffsets(db, id), false, Some(false), NoteRestored);
        SaveLeaves(locked, id, e, now);
        AfterLock(db, locked, Save(locked, id, e, now), id, row, TagsOf(db, id), EnabledOffsets(db, id), Some(false),
                  NoteRestored);
        SameBump(db, locked, Save(locked, id, e, now), id);
      }
    } else { NotCurrent(db, id, version, seriesVersion); }
  }
}

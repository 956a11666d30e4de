/** The rest of the store's invariant: occurrence slots, recurring-trash actions and
    redaction of purged content. (Reminders: module Reconciliation; series lineages:
    module Lineage.) */
module Invariants {
  import opened Prelude
  import opened Storage
  import opened Progress

  const PURGED := "[purged]"

  // ---------- occurrence slots ----------

  /** A recurring note has a series and a key; no two notes share a slot. */
  predicate Slotted(db: Db, n: NoteId)
    requires n in db.notes
  {
    && (db.notes[n].seriesId.Some? <==> db.notes[n].recurrenceKey.Some?)
    && (db.notes[n].seriesId.Some? ==> db.notes[n].seriesId.value in db.series)
  }

  predicate SameSlot(m: Note, n: Note) {
    m.seriesId.Some? && m.seriesId == n.seriesId && m.recurrenceKey == n.recurrenceKey
  }

  ghost predicate SlotInv(db: Db) {
    && (forall n :: n in db.notes ==> Slotted(db, n))
    && (forall m, n :: m in db.notes && n in db.notes && SameSlot(db.notes[m], db.notes[n]) ==> m == n)
  }

  // ---------- recurring-trash actions ----------

  /** The note is an intact member of the open action. */
  predicate Pinned(db: Db, a: ActionId, n: NoteId) {
    && n in db.notes && a in db.actions
    && PinnedRow(db.notes[n], a, db.actions[a])
  }

  predicate PinnedRow(n: Note, a: ActionId, action: Action) {
    && n.action == Some(a) && n.deletedAt == Some(action.trashedAt)
    && n.seriesId == Some(action.series)
    && n.recurrenceKey.Some? && n.recurrenceKey.value >= action.boundary
    && n.purgedAt.None? && n.supersededAt.None?
  }

  predicate PointsHome(db: Db, n: NoteId)
    requires n in db.notes
  {
    db.notes[n].action.Some? ==> Membership(db.notes[n].action.value, n) in db.members
  }

  predicate Enrolled(db: Db, m: Membership) {
    m.action in db.actions && m.note in db.notes
  }

  ghost predicate Sound(db: Db, a: ActionId)
    requires a in db.actions
  {
    db.actions[a].sealed && exists m :: m in db.members && m.action == a
  }

  /** If anything points at an action, the whole action is open. */
  ghost predicate TrashInv(db: Db) {
    && (forall n :: n in db.notes ==> PointsHome(db, n))
    && (forall m :: m in db.members ==> Enrolled(db, m))
    && (forall a :: a in db.actions ==> Sound(db, a))
    && (forall m, n :: m in db.members && n in db.notes && db.notes[n].action == Some(m.action)
          ==> Pinned(db, m.action, m.note))
  }

  ghost predicate OpenAction(db: Db, a: ActionId) {
    forall m :: m in db.members && m.action == a ==> Pinned(db, a, m.note)
  }

  /** Every sealed action is open as a unit or closed as a unit, never both. */
  lemma OpenOrClosed(db: Db, a: ActionId)
    requires TrashInv(db) && a in db.actions
    ensures OpenAction(db, a) <==> !Closed(db, a)
  {
    assert Sound(db, a);
    var m :| m in db.members && m.action == a;
    if OpenAction(db, a) { assert Pinned(db, a, m.note); }
    if !Closed(db, a) {
      var n :| n in db.notes && db.notes[n].action == Some(a);
      forall m | m in db.members && m.action == a ensures Pinned(db, a, m.note) {
      }
    }
  }

  /** A step that leaves every action alone: notes in an action keep what pins them, and no
      other note enters one. */
  predicate LeavesActions(n: Option<Note>, n': Note) {
    if n.Some? && n.value.action.Some?
    then n'.action == n.value.action && n'.deletedAt == n.value.deletedAt && n'.seriesId == n.value.seriesId
      && n'.recurrenceKey == n.value.recurrenceKey && n'.purgedAt == n.value.purgedAt
      && n'.supersededAt == n.value.supersededAt
    else n'.action.None?
  }

  function Row(db: Db, n: NoteId): Option<Note> {
    if n in db.notes then Some(db.notes[n]) else None
  }

  lemma LeavingActionsKeepsTrash(a: Db, b: Db)
    requires TrashInv(a) && b.actions == a.actions && b.members == a.members
    requires a.notes.Keys <= b.notes.Keys
    requires forall n :: n in b.notes ==> LeavesActions(Row(a, n), b.notes[n])
    ensures TrashInv(b) && ActionsAdvance(a, b)
  {
    forall n | n in b.notes ensures PointsHome(b, n) {
      assert LeavesActions(Row(a, n), b.notes[n]);
      if n in a.notes { assert PointsHome(a, n); }
    }
    forall m | m in b.members ensures Enrolled(b, m) { assert Enrolled(a, m); }
    forall x | x in b.actions ensures Sound(b, x) { assert Sound(a, x); }
    forall m, n | m in b.members && n in b.notes && b.notes[n].action == Some(m.action)
      ensures Pinned(b, m.action, m.note)
    {
      assert LeavesActions(Row(a, n), b.notes[n]);
      assert Pinned(a, m.action, m.note);
      assert LeavesActions(Row(a, m.note), b.notes[m.note]);
    }
    forall x | x in a.actions ensures ActionAdvances(a, b, x) {
      forall n | Closed(a, x) && n in b.notes ensures b.notes[n].action != Some(x) {
        assert LeavesActions(Row(a, n), b.notes[n]);
      }
    }
  }

  /** No row carries the marker of the retired trash scheme. */
  ghost predicate NoLegacyTrash(db: Db) {
    forall n :: n in db.notes ==> db.notes[n].seriesTrashedAt.None?
  }

  /** A step that gives no note the marker. */
  ghost predicate MarksNothing(a: Db, b: Db) {
    forall n :: n in b.notes && b.notes[n].seriesTrashedAt.Some? ==> n in a.notes && a.notes[n].seriesTrashedAt.Some?
  }

  // ---------- redaction ----------

  predicate Purged(db: Db, n: NoteId) {
    n in db.notes && db.notes[n].purgedAt.Some?
  }

  predicate NoteErased(n: Note) {
    n.title == PURGED && n.body == "" && n.action.None? && n.deletedAt.Some?
  }

  predicate DeliveryErased(d: Delivery) {
    !Open(d) && !d.state.AttemptStarted? && d.recipient.None? && d.content.None?
  }

  predicate NotificationErased(n: Notification) {
    n.title == PURGED && n.body == ""
  }

  predicate SlotErased(db: Db, n: Note) {
    n.seriesId.Some? && n.recurrenceKey.Some? ==>
      var k := SlotKey(n.seriesId.value, n.recurrenceKey.value);
      k in db.exceptions ==> db.exceptions[k].overridden == NO_OVERRIDES
  }

  /** No authored content is left anywhere for a purged note. */
  ghost predicate NoteRedaction(db: Db) {
    && (forall n :: Purged(db, n) ==> NoteErased(db.notes[n]) && SlotErased(db, db.notes[n]))
    && (forall t :: t in db.noteTags ==> !Purged(db, t.note))
    && (forall dk :: dk in db.deliveries && Purged(db, dk.rule.note) ==> DeliveryErased(db.deliveries[dk]))
    && (forall dk :: dk in db.notifications && Purged(db, dk.rule.note) ==> NotificationErased(db.notifications[dk]))
  }

  predicate SeriesPurged(db: Db, s: SeriesId) {
    s in db.series && db.series[s].purgedAt.Some?
  }

  predicate SeriesErased(s: Series) {
    s.title == PURGED && s.body == "" && !s.active
  }

  predicate ExceptionErased(x: OccurrenceException) {
    x.cancelled && x.overridden == NO_OVERRIDES
  }

  /** A purged series keeps no template and no unpurged note. */
  ghost predicate SeriesRedaction(db: Db) {
    && (forall s :: SeriesPurged(db, s) ==> SeriesErased(db.series[s]))
    && (forall t :: t in db.seriesTags ==> !SeriesPurged(db, t.series))
    && (forall t :: t in db.templates ==> !SeriesPurged(db, t.series))
    && (forall k :: k in db.exceptions && SeriesPurged(db, k.series) ==> ExceptionErased(db.exceptions[k]))
    && (forall n :: n in db.notes && db.notes[n].seriesId.Some? && SeriesPurged(db, db.notes[n].seriesId.value)
          ==> db.notes[n].purgedAt.Some?)
  }

  ghost predicate RedactionInv(db: Db) {
    NoteRedaction(db) && SeriesRedaction(db)
  }

  // ---------- steps that leave the purged alone ----------

  predicate SameNote(a: Db, b: Db, n: NoteId) {
    n in a.notes && n in b.notes && b.notes[n] == a.notes[n]
  }

  predicate InSlot(n: Note, k: SlotKey) {
    n.seriesId == Some(k.series) && n.recurrenceKey == Some(k.key)
  }

  /** No note is purged or changed after its purge, and nothing is hung on a purged note. */
  ghost predicate NotesFrozen(a: Db, b: Db) {
    && a.notes.Keys <= b.notes.Keys
    && (forall n :: n in b.notes && (Purged(a, n) || Purged(b, n)) ==> SameNote(a, b, n))
    && (forall t :: t in b.noteTags && t !in a.noteTags ==> !Purged(b, t.note))
    && (forall dk :: dk in b.deliveries && Purged(b, dk.rule.note) ==>
          dk in a.deliveries && b.deliveries[dk] == a.deliveries[dk])
    && (forall dk :: dk in b.notifications && Purged(b, dk.rule.note) ==>
          dk in a.notifications && b.notifications[dk] == a.notifications[dk])
    && (forall k, n | k in b.exceptions && Purged(b, n) && InSlot(b.notes[n], k) ::
          k in a.exceptions && b.exceptions[k] == a.exceptions[k])
  }

  lemma FrozenNotes(a: Db, b: Db)
    requires NoteRedaction(a) && NotesFrozen(a, b)
    ensures NoteRedaction(b) && NotesAdvance(a, b)
  {
    forall n | Purged(b, n) ensures NoteErased(b.notes[n]) && SlotErased(b, b.notes[n]) {
      assert SameNote(a, b, n);
    }
    forall t | t in b.noteTags ensures !Purged(b, t.note) {
      assert Purged(b, t.note) ==> SameNote(a, b, t.note);
    }
    forall dk | dk in b.deliveries && Purged(b, dk.rule.note) ensures DeliveryErased(b.deliveries[dk]) {
      assert SameNote(a, b, dk.rule.note);
    }
    forall dk | dk in b.notifications && Purged(b, dk.rule.note) ensures NotificationErased(b.notifications[dk]) {
      assert SameNote(a, b, dk.rule.note);
    }
    forall n | n in a.notes ensures n in b.notes && NoteAdvances(a.notes[n], b.notes[n]) {
      if a.notes[n].purgedAt.Some? { assert SameNote(a, b, n); }
    }
  }

  predicate SameSeries(a: Db, b: Db, s: SeriesId) {
    s in a.series && s in b.series && b.series[s] == a.series[s]
  }

  ghost predicate SeriesFrozen(a: Db, b: Db) {
    && a.series.Keys <= b.series.Keys
    && (forall s :: s in b.series && (SeriesPurged(a, s) || SeriesPurged(b, s)) ==> SameSeries(a, b, s))
    && (forall s :: s in a.series ==> SeriesRowAdvances(a.series[s], b.series[s]))
    && (forall t :: t in b.seriesTags && t !in a.seriesTags ==> !SeriesPurged(b, t.series))
    && (forall t :: t in b.templates && t !in a.templates ==> !SeriesPurged(b, t.series))
    && (forall k :: k in b.exceptions && SeriesPurged(b, k.series) ==>
          k in a.exceptions && b.exceptions[k] == a.exceptions[k])
    && (forall n :: n in b.notes && b.notes[n].seriesId.Some? && SeriesPurged(b, b.notes[n].seriesId.value) ==>
          n in a.notes && a.notes[n].seriesId == b.notes[n].seriesId)
  }

  lemma FrozenSeries(a: Db, b: Db)
    requires RedactionInv(a) && NotesAdvance(a, b) && SeriesFrozen(a, b)
    ensures SeriesRedaction(b) && SeriesAdvances(a, b)
  {
    forall s | SeriesPurged(b, s) ensures SeriesErased(b.series[s]) { assert SameSeries(a, b, s); }
    forall t | t in b.seriesTags ensures !SeriesPurged(b, t.series) {
      assert SeriesPurged(b, t.series) ==> SameSeries(a, b, t.series);
    }
    forall t | t in b.templates ensures !SeriesPurged(b, t.series) {
      assert SeriesPurged(b, t.series) ==> SameSeries(a, b, t.series);
    }
    forall k | k in b.exceptions && SeriesPurged(b, k.series) ensures ExceptionErased(b.exceptions[k]) {
      assert SameSeries(a, b, k.series);
    }
    forall n | n in b.notes && b.notes[n].seriesId.Some? && SeriesPurged(b, b.notes[n].seriesId.value)
      ensures b.notes[n].purgedAt.Some?
    {
      assert SameSeries(a, b, b.notes[n].seriesId.value);
      assert NoteAdvances(a.notes[n], b.notes[n]);
    }
  }
}

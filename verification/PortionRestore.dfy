/** backend/app/api/router.py, restore_series_portion: the restore of a range of a series, by the
    one action that holds it or, in stores older than actions, by the marks on its notes. */
module PortionRestore {
  import opened Prelude
  import opened Storage
  import opened Reconciliation
  import opened Progress
  import opened Invariants
  import opened Lineage
  import opened Store
  import opened Api
  import opened Batches
  import opened TrashActions
  import H = NoteHandlers
  import TR = TrashResults

  // ---------- what the handler reads ----------

  function HeldFrom(db: Db, s: SeriesId, key: Option<Time>): set<NoteId> {
    set n | n in db.notes && db.notes[n].seriesId == Some(s) && db.notes[n].action.Some?
            && (key.Some? ==> db.notes[n].recurrenceKey.Some? && db.notes[n].recurrenceKey.value >= key.value)
  }

  function ActionsFrom(db: Db, s: SeriesId, key: Option<Time>): set<ActionId> {
    set n | n in HeldFrom(db, s, key) :: db.notes[n].action.value
  }

  /** Notes that only the retired trash scheme holds. */
  function LegacyFrom(db: Db, s: SeriesId, key: Option<Time>): set<NoteId> {
    set n | n in db.notes && db.notes[n].seriesId == Some(s) && db.notes[n].seriesTrashedAt.Some?
            && db.notes[n].action.None? && db.notes[n].deletedAt.Some?
            && db.notes[n].supersededAt.None? && db.notes[n].purgedAt.None?
            && (key.Some? ==> db.notes[n].recurrenceKey.Some? && db.notes[n].recurrenceKey.value >= key.value)
  }

  predicate Marked(n: Note, s: SeriesId) {
    n.seriesId == Some(s) && n.recurrenceKey.Some? && n.seriesTrashedAt.Some? && n.supersededAt.None?
  }

  // _portion_boundary with restoring=True looks at marked notes only.
  function MarkedKeys(db: Db, s: SeriesId): set<Time> {
    set n | n in db.notes && Marked(db.notes[n], s) :: db.notes[n].recurrenceKey.value
  }

  function MarkedFrom(db: Db, s: SeriesId, boundary: Time): set<NoteId> {
    set n | n in db.notes && Marked(db.notes[n], s) && db.notes[n].recurrenceKey.value >= boundary
  }

  /** The occurrence was cancelled on its own, before its portion was trashed. */
  predicate CancelledAlone(db: Db, s: SeriesId, n: NoteId) {
    n in db.notes && db.notes[n].recurrenceKey.Some?
    && SlotKey(s, db.notes[n].recurrenceKey.value) in db.exceptions
    && db.exceptions[SlotKey(s, db.notes[n].recurrenceKey.value)].cancelled
  }

  // ---------- what it writes ----------

  function UnmarkRow(n: Note): Note {
    n.(seriesTrashedAt := None, version := n.version + 1)
  }

  function ReviveRow(n: Note): Note {
    n.(seriesTrashedAt := None, deletedAt := None, version := n.version + 1)
  }

  function Unmarked(db: Db, ids: set<NoteId>): Db {
    db.(notes := map n | n in db.notes :: if n in ids then UnmarkRow(db.notes[n]) else db.notes[n])
  }

  function RevivedNotes(db: Db, ids: set<NoteId>): map<NoteId, Note> {
    map n | n in db.notes :: if n in ids then ReviveRow(db.notes[n]) else db.notes[n]
  }

  function StayingDeleted(db: Db, s: SeriesId, boundary: Time): set<NoteId> {
    set n | n in MarkedFrom(db, s, boundary) && CancelledAlone(db, s, n)
  }

  function Revived(db: Db, s: SeriesId, boundary: Time): set<NoteId> {
    set n | n in MarkedFrom(db, s, boundary) && !CancelledAlone(db, s, n)
  }

  /** All marks of the range go; the notes that were not cancelled on their own come back. */
  function MarksLifted(db: Db, s: SeriesId, boundary: Time, now: Time): Db
    requires s in db.series
  {
    var revived := Revived(db, s, boundary);
    var base := Unmarked(db, StayingDeleted(db, s, boundary));
    Relabelled(base, s, RevivedNotes(base, revived), revived, db.actions, db.members, now)
  }

  /** The branch for the retired scheme. Its query takes purged notes too: unless they have
      expired, the trigger that guards them aborts the transaction. */
  function RestoreMarked(db: Db, s: SeriesId, key: Option<Time>, now: Time): Result<Db, ApiError>
    requires s in db.series
  {
    if key.None? && MarkedKeys(db, s) == {} then Failure(NothingToRestore)
    else if key.Some? && key.value !in MarkedKeys(db, s) then Failure(OccurrenceNotFound)
    else
      var boundary := if key.Some? then key.value else Least(MarkedKeys(db, s));
      var ids := MarkedFrom(db, s, boundary);
      if exists n :: n in ids && db.notes[n].seriesTrashedAt.value <= now - RETENTION then Failure(RetentionExpired)
      else if exists n :: n in ids && db.notes[n].purgedAt.Some? then Failure(InternalError)
      else Success(MarksLifted(db, s, boundary, now))
  }

  ghost predicate RestoreByPortion(db: Db, s: SeriesId, version: int, key: Option<Time>, now: Time,
                                   r: Result<Db, ApiError>)
  {
    if LockedSeries(db, s, version).Some? then r == Failure(LockedSeries(db, s, version).value)
    else if ActionsFrom(db, s, key) == {} then r == RestoreMarked(db, s, key, now)
    else if |ActionsFrom(db, s, key)| != 1 || LegacyFrom(db, s, key) != {} then r == Failure(IndividualRestoreRequired)
    else exists a :: a in ActionsFrom(db, s, key) && PortionAction(db, a, version, key, now, r)
  }

  ghost predicate PortionAction(db: Db, a: ActionId, version: int, key: Option<Time>, now: Time,
                                r: Result<Db, ApiError>) {
    && a in db.actions
    && if key.Some? && key.value != db.actions[a].boundary then r == Failure(IndividualRestoreRequired)
       else r == RestoreAction(db, a, version, None, now)
  }

  // ---------- lifting marks keeps the store in order ----------

  lemma UnmarkKeeps(db: Db, ids: set<NoteId>)
    requires StoreInv(db) && forall n :: n in ids && n in db.notes ==> db.notes[n].purgedAt.None?
    ensures Keeps(db, Unmarked(db, ids))
  {
    hide ReminderInv, LineageInv, RedactionInv, TrashInv, Reconcile, Advances, SlotInv, NotesFrozen, SeriesFrozen,
         Unmarked, PlanCovers;
    var c := Unmarked(db, ids);
    UnmarkRows(db, ids);
    Unchanged(db.(notes := c.notes), NO_PLAN, 0);
    EditKeeps(db, c.notes, NO_PLAN, 0, c);
  }

  lemma UnmarkRows(db: Db, ids: set<NoteId>)
    requires SlotInv(db) && forall n :: n in ids && n in db.notes ==> db.notes[n].purgedAt.None?
    ensures var c := Unmarked(db, ids);
            && c == db.(notes := c.notes) && PlanCovers(db, c.notes, NO_PLAN) && SlotInv(c)
            && NotesFrozen(db, c) && SeriesFrozen(db, c)
            && forall n :: n in c.notes ==> LeavesActions(Row(db, n), c.notes[n])
  {
    var c := Unmarked(db, ids);
    forall n | n in c.notes ensures Slotted(c, n) && SameSlotRow(db.notes[n], c.notes[n]) { assert Slotted(db, n); }
    forall m, n | m in c.notes && n in c.notes && SameSlot(c.notes[m], c.notes[n]) ensures m == n {
      assert SameSlotRow(db.notes[m], c.notes[m]) && SameSlotRow(db.notes[n], c.notes[n]);
      assert SameSlot(db.notes[m], db.notes[n]);
    }
  }

  lemma ReviveKeeps(db: Db, s: SeriesId, ids: set<NoteId>, now: Time)
    requires StoreInv(db) && s in db.series && db.series[s].purgedAt.None?
    requires ids <= db.notes.Keys
    requires forall n :: n in ids ==> db.notes[n].action.None? && db.notes[n].purgedAt.None?
    ensures Keeps(db, Relabelled(db, s, RevivedNotes(db, ids), ids, db.actions, db.members, now))
  {
    hide ReminderInv, SlotInv, LineageInv, RedactionInv, Reconcile, TrashInv, ActionsAdvance, Advances, EnabledOffsets;
    var notes := RevivedNotes(db, ids);
    var c := Relabelled(db, s, notes, ids, db.actions, db.members, now);
    forall n | n in c.notes ensures LeavesActions(Row(db, n), c.notes[n]) { }
    LeavingActionsKeepsTrash(db, c);
    RelabelKeeps(db, s, notes, ids, db.actions, db.members, now);
  }

  lemma NoneHeld(db: Db, s: SeriesId, key: Option<Time>, n: NoteId)
    requires ActionsFrom(db, s, key) == {} && n in db.notes && db.notes[n].seriesId == Some(s)
    requires key.Some? ==> db.notes[n].recurrenceKey.Some? && db.notes[n].recurrenceKey.value >= key.value
    ensures db.notes[n].action.None?
  {
    HeldAreListed(db, s, key, n);
  }

  lemma HeldAreListed(db: Db, s: SeriesId, key: Option<Time>, n: NoteId)
    ensures n in HeldFrom(db, s, key) ==>
              n in db.notes && db.notes[n].action.Some? && db.notes[n].action.value in ActionsFrom(db, s, key)
  {
  }

  lemma MarksLiftedKeeps(db: Db, s: SeriesId, boundary: Time, now: Time)
    requires StoreInv(db) && s in db.series && db.series[s].purgedAt.None?
    requires forall n :: n in MarkedFrom(db, s, boundary) ==> db.notes[n].action.None? && db.notes[n].purgedAt.None?
    ensures Keeps(db, MarksLifted(db, s, boundary, now))
  {
    hide ReminderInv, SlotInv, LineageInv, RedactionInv, Reconcile, TrashInv, Advances, EnabledOffsets, CancelledAlone,
         NotesFrozen, SeriesFrozen, Marked;
    var staying, revived := StayingDeleted(db, s, boundary), Revived(db, s, boundary);
    var base := Unmarked(db, staying);
    UnmarkKeeps(db, staying);
    ReviveKeeps(base, s, revived, now);
    AdvancesTransitive(db, base, MarksLifted(db, s, boundary, now));
  }

  lemma LiftedRow(db: Db, s: SeriesId, boundary: Time, now: Time, n: NoteId)
    requires s in db.series
    ensures var c := MarksLifted(db, s, boundary, now);
            && c.notes.Keys == db.notes.Keys
            && (n in db.notes ==>
                 c.notes[n] == if n !in MarkedFrom(db, s, boundary) then db.notes[n]
                               else if CancelledAlone(db, s, n) then UnmarkRow(db.notes[n])
                               else ReviveRow(db.notes[n]))
  {
    hide Reconcile, EnabledOffsets, CancelledAlone, Marked;
  }

  /** The marks of a whole range go, every note of it is back but for those cancelled on their
      own, and the store stays in order. */
  lemma RestoreMarkedKeeps(db: Db, s: SeriesId, key: Option<Time>, now: Time)
    requires StoreInv(db) && s in db.series && db.series[s].purgedAt.None? && ActionsFrom(db, s, key) == {}
    requires RestoreMarked(db, s, key, now).Success?
    ensures var c := RestoreMarked(db, s, key, now).value;
            && Keeps(db, c) && c.notes.Keys == db.notes.Keys
            && forall n :: n in db.notes ==> MarkGone(db, c, s, key, n)
  {
    hide StoreInv, MarksLifted, Advances, CancelledAlone, HeldFrom, ActionsFrom;
    var boundary := if key.Some? then key.value else Least(MarkedKeys(db, s));
    forall n | n in MarkedFrom(db, s, boundary) ensures db.notes[n].action.None? && db.notes[n].purgedAt.None? {
      NoneHeld(db, s, key, n);
    }
    MarksLiftedKeeps(db, s, boundary, now);
    LiftedRow(db, s, boundary, now, 0);
    forall n | n in db.notes ensures MarkGone(db, MarksLifted(db, s, boundary, now), s, key, n) {
      if Marked(db.notes[n], s) { assert db.notes[n].recurrenceKey.value in MarkedKeys(db, s); }
      LiftedRow(db, s, boundary, now, n);
    }
  }

  /** A marked note in the range is back, or deleted without the mark if it was cancelled on its
      own; any other note is as it was. */
  predicate MarkGone(db: Db, c: Db, s: SeriesId, key: Option<Time>, n: NoteId)
    requires n in db.notes
  {
    && n in c.notes
    && if Marked(db.notes[n], s) && (key.Some? ==> db.notes[n].recurrenceKey.value >= key.value)
       then c.notes[n] == db.notes[n].(seriesTrashedAt := None, version := db.notes[n].version + 1,
                                       deletedAt := if CancelledAlone(db, s, n) then db.notes[n].deletedAt else None)
       else c.notes[n] == db.notes[n]
  }

  /** A range comes back by the one open action that holds it, whole, or by the marks of the
      retired scheme if no action is in range; a store without marks knows the first way only. */
  lemma PortionRouteRestores(db: Db, s: SeriesId, version: int, key: Option<Time>, now: Time, r: Result<Db, ApiError>)
    requires StoreInv(db) && RestoreByPortion(db, s, version, key, now, r) && r.Success?
    ensures Keeps(db, r.value)
    ensures (exists a :: RestoredByAction(db, s, version, key, now, r, a))
            || (ActionsFrom(db, s, key) == {} && s in db.series && r == RestoreMarked(db, s, key, now))
    ensures NoLegacyTrash(db) ==> exists a :: RestoredByAction(db, s, version, key, now, r, a)
  {
    hide ReminderInv, SlotInv, LineageInv, RedactionInv, Reconcile, EnabledOffsets, Advances, Closed, RestoreAction;
    if ActionsFrom(db, s, key) == {} {
      RestoreMarkedKeeps(db, s, key, now);
      assert NoLegacyTrash(db) ==> MarkedKeys(db, s) == {};
    } else {
      var a :| a in ActionsFrom(db, s, key) && PortionAction(db, a, version, key, now, r);
      var n :| n in HeldFrom(db, s, key) && db.notes[n].action.value == a;
      assert PointsHome(db, n) && Membership(a, n) in db.members;
      var m := Membership(a, n);
      assert m in db.members && Pinned(db, a, n);
      Singleton(ActionsFrom(db, s, key), a);
      RestoreActionKeeps(db, a, version, None, now);
      assert RestoredByAction(db, s, version, key, now, r, a);
    }
  }

  ghost predicate RestoredByAction(db: Db, s: SeriesId, version: int, key: Option<Time>, now: Time,
                                   r: Result<Db, ApiError>, a: ActionId) {
    && a in db.actions && db.actions[a].series == s && ActionsFrom(db, s, key) == {a}
    && r == RestoreAction(db, a, version, None, now) && r.Success? && Closed(r.value, a)
  }

  // ---------- which requests are accepted ----------

  /** An action holds an occurrence in the range: from the key on, or anywhere. */
  predicate HoldsInRange(db: Db, s: SeriesId, key: Option<Time>, a: ActionId) {
    exists n :: n in db.notes && db.notes[n].seriesId == Some(s) && db.notes[n].action == Some(a)
                && (key.Some? ==> db.notes[n].recurrenceKey.Some? && db.notes[n].recurrenceKey.value >= key.value)
  }

  /** An occurrence in the range is in the trash by the legacy marker alone. */
  predicate MarkedInRange(db: Db, s: SeriesId, key: Option<Time>) {
    exists n :: n in db.notes && db.notes[n].seriesId == Some(s) && db.notes[n].seriesTrashedAt.Some?
                && db.notes[n].action.None? && db.notes[n].deletedAt.Some?
                && db.notes[n].supersededAt.None? && db.notes[n].purgedAt.None?
                && (key.Some? ==> db.notes[n].recurrenceKey.Some? && db.notes[n].recurrenceKey.value >= key.value)
  }

  /** The range begins at a marked occurrence, and none of it is past retention or redacted. */
  predicate Liftable(db: Db, s: SeriesId, key: Option<Time>, now: Time) {
    && (exists n :: n in db.notes && Marked(db.notes[n], s) && (key.Some? ==> db.notes[n].recurrenceKey == key))
    && forall n :: n in db.notes && Marked(db.notes[n], s)
                   && (key.Some? ==> db.notes[n].recurrenceKey.value >= key.value) ==>
         now < db.notes[n].seriesTrashedAt.value + RETENTION && db.notes[n].purgedAt.None?
  }

  lemma HoldersMean(db: Db, s: SeriesId, key: Option<Time>, a: ActionId)
    ensures a in ActionsFrom(db, s, key) <==> HoldsInRange(db, s, key, a)
  {
    if n: NoteId :| n in db.notes && db.notes[n].seriesId == Some(s) && db.notes[n].action == Some(a)
                    && (key.Some? ==> db.notes[n].recurrenceKey.Some? && db.notes[n].recurrenceKey.value >= key.value) {
      assert n in HeldFrom(db, s, key);
    }
  }

  lemma LegacyMeans(db: Db, s: SeriesId, key: Option<Time>)
    ensures LegacyFrom(db, s, key) != {} <==> MarkedInRange(db, s, key)
  {
    if LegacyFrom(db, s, key) != {} { NonEmpty(LegacyFrom(db, s, key)); var n :| n in LegacyFrom(db, s, key); }
    if n: NoteId :| n in db.notes && db.notes[n].seriesId == Some(s) && db.notes[n].seriesTrashedAt.Some?
                    && db.notes[n].action.None? && db.notes[n].deletedAt.Some?
                    && db.notes[n].supersededAt.None? && db.notes[n].purgedAt.None?
                    && (key.Some? ==> db.notes[n].recurrenceKey.Some? && db.notes[n].recurrenceKey.value >= key.value) {
      assert n in LegacyFrom(db, s, key);
    }
  }

  lemma RestoreMarkedAccepted(db: Db, s: SeriesId, key: Option<Time>, now: Time)
    requires s in db.series
    ensures RestoreMarked(db, s, key, now).Success? <==> Liftable(db, s, key, now)
  {
    hide MarksLifted;
    forall t ensures t in MarkedKeys(db, s) <==>
        exists n :: n in db.notes && Marked(db.notes[n], s) && db.notes[n].recurrenceKey == Some(t) {
    }
    if MarkedKeys(db, s) != {} { NonEmpty(MarkedKeys(db, s)); }
    forall n | n in db.notes && Marked(db.notes[n], s) ensures db.notes[n].recurrenceKey.value in MarkedKeys(db, s) { }
  }

  /** What is accepted: at the current version of an unpurged series, the range is held by one open
      action alone, retained, and the key, if given, is where that action began; or no action holds
      any of it and its marks can be lifted. */
  lemma PortionAccepted(db: Db, s: SeriesId, version: int, key: Option<Time>, now: Time, r: Result<Db, ApiError>)
    requires StoreInv(db) && RestoreByPortion(db, s, version, key, now, r)
    ensures r.Success? <==>
              && s in db.series && db.series[s].purgedAt.None? && db.series[s].version == version
              && if exists a :: HoldsInRange(db, s, key, a)
                 then !MarkedInRange(db, s, key)
                   && exists a :: OnlyHolder(db, s, key, a) && (key.Some? ==> key.value == db.actions[a].boundary)
                                  && now < db.actions[a].trashedAt + RETENTION
                 else Liftable(db, s, key, now)
  {
    hide StoreInv, RestoreMarked, RestoreAction, HoldsInRange, MarkedInRange, Liftable, LegacyFrom, ActionsFrom,
         OnlyHolder;
    if s in db.series && db.series[s].purgedAt.None? && db.series[s].version == version {
      forall a ensures a in ActionsFrom(db, s, key) <==> HoldsInRange(db, s, key, a) { HoldersMean(db, s, key, a); }
      LegacyMeans(db, s, key);
      RestoreMarkedAccepted(db, s, key, now);
      if ActionsFrom(db, s, key) != {} {
        NonEmpty(ActionsFrom(db, s, key));
        var a :| a in ActionsFrom(db, s, key);
        HeldRange(db, s, version, key, now, r, a);
      }
    }
  }

  /** The action holds part of the range, and no other does. */
  ghost predicate OnlyHolder(db: Db, s: SeriesId, key: Option<Time>, a: ActionId) {
    a in db.actions && HoldsInRange(db, s, key, a) && forall b :: HoldsInRange(db, s, key, b) ==> b == a
  }

  lemma HeldRange(db: Db, s: SeriesId, version: int, key: Option<Time>, now: Time, r: Result<Db, ApiError>, a: ActionId)
    requires StoreInv(db) && RestoreByPortion(db, s, version, key, now, r) && a in ActionsFrom(db, s, key)
    requires s in db.series && db.series[s].purgedAt.None? && db.series[s].version == version
    ensures a in db.actions
    ensures r.Success? <==>
              && |ActionsFrom(db, s, key)| == 1 && LegacyFrom(db, s, key) == {}
              && (key.Some? ==> key.value == db.actions[a].boundary) && now < db.actions[a].trashedAt + RETENTION
    ensures |ActionsFrom(db, s, key)| == 1 <==> OnlyHolder(db, s, key, a)
    ensures forall b :: OnlyHolder(db, s, key, b) ==> b == a
  {
    hide StoreInv, RestoreMarked, RestoreAction, HoldsInRange, ActionsFrom, LegacyFrom;
    HeldActions(db, s, key, a);
    forall b ensures b in ActionsFrom(db, s, key) <==> HoldsInRange(db, s, key, b) { HoldersMean(db, s, key, b); }
    if |ActionsFrom(db, s, key)| == 1 { Singleton(ActionsFrom(db, s, key), a); }
    if OnlyHolder(db, s, key, a) {
      forall b | b in ActionsFrom(db, s, key) ensures b == a { assert HoldsInRange(db, s, key, b); }
      assert ActionsFrom(db, s, key) == {a};
    }
    HolderRestores(db, s, version, key, now, a);
  }

  lemma HolderRestores(db: Db, s: SeriesId, version: int, key: Option<Time>, now: Time, a: ActionId)
    requires StoreInv(db) && a in ActionsFrom(db, s, key) && a in db.actions
    requires s in db.series && db.series[s].purgedAt.None? && db.series[s].version == version
    ensures RestoreAction(db, a, version, None, now).Success? <==> now < db.actions[a].trashedAt + RETENTION
  {
    hide ReminderInv, SlotInv, LineageInv, RedactionInv, RestoreAction;
    var n :| n in HeldFrom(db, s, key) && db.notes[n].action.value == a;
    assert PointsHome(db, n);
    var m := Membership(a, n);
    assert m in db.members && Pinned(db, m.action, m.note);
    TR.RestoreMeans(db, a, version, None, now);
  }

  lemma Singleton(s: set<int>, x: int)
    requires x in s && |s| == 1
    ensures s == {x}
  {
    assert |s - {x}| == 0;
    assert s == {x} + (s - {x});
  }

  // ---------- the handler, note by note ----------

  // lines 1280-1376
  method RestoreSeriesPortionTx(session: Session, s: SeriesId, version: int, key: Option<Time>, now: Time)
    returns (r: Result<(), ApiError>)
    requires StoreInv(session.db)
    modifies session`db
    ensures exists answer :: RestoreByPortion(old(session.db), s, version, key, now, answer)
                             && H.Committed(old(session.db), session.db, answer, r)
  {
    hide StoreInv, RestoreAction, ActionsFrom, LegacyFrom, RestoreMarked;
    ghost var db := session.db;
    ghost var answer: Result<Db, ApiError>;
    if s !in session.db.series || session.db.series[s].purgedAt.Some? {
      r, answer := Failure(NotFound), Failure(NotFound);
    } else if session.db.series[s].version != version {
      r, answer := Failure(VersionConflict), Failure(VersionConflict);
    } else {
      var actions := ActionsFrom(session.db, s, key);
      if actions == {} {
        answer := RestoreMarked(db, s, key, now);
        r := RestoreMarkedTx(session, s, key, now);
      } else if |actions| != 1 || LegacyFrom(session.db, s, key) != {} {
        r, answer := Failure(IndividualRestoreRequired), Failure(IndividualRestoreRequired);
      } else {
        NonEmpty(actions);
        var a :| a in actions;
        HeldActions(db, s, key, a);
        if key.Some? && key.value != session.db.actions[a].boundary {
          r, answer := Failure(IndividualRestoreRequired), Failure(IndividualRestoreRequired);
        } else {
          answer := RestoreAction(session.db, a, version, None, now);
          r := RestoreTrashActionTx(session, a, version, None, now);
        }
        assert PortionAction(db, a, version, key, now, answer);
      }
    }
    assert RestoreByPortion(db, s, version, key, now, answer);
  }

  lemma HeldActions(db: Db, s: SeriesId, key: Option<Time>, a: ActionId)
    requires StoreInv(db) && a in ActionsFrom(db, s, key)
    ensures a in db.actions
  {
  }

  // lines 1334-1376
  method RestoreMarkedTx(session: Session, s: SeriesId, key: Option<Time>, now: Time)
    returns (r: Result<(), ApiError>)
    requires StoreInv(session.db) && s in session.db.series
    modifies session`db
    ensures H.Committed(old(session.db), session.db, RestoreMarked(old(session.db), s, key, now), r)
  {
    hide StoreInv, MarksLifted;
    var keys := MarkedKeys(session.db, s);
    if key.None? && keys == {} { return Failure(NothingToRestore); }
    if key.Some? && key.value !in keys { return Failure(OccurrenceNotFound); }
    var boundary;
    if key.Some? { boundary := key.value; } else { boundary := Least(keys); }
    var ids := MarkedFrom(session.db, s, boundary);
    if exists n :: n in ids && session.db.notes[n].seriesTrashedAt.value <= now - RETENTION {
      return Failure(RetentionExpired);
    }
    // the trigger that guards purged notes
    if exists n :: n in ids && session.db.notes[n].purgedAt.Some? { return Failure(InternalError); }
    LiftMarks(session, s, boundary, now);
    r := Success(());
  }

  ghost function ReviveBatch(db: Db, ids: set<NoteId>): Batch {
    Batch(map n | n in ids && n in db.notes :: ReviveRow(db.notes[n]), KeepOffsets(db, ids * db.notes.Keys))
  }

  lemma ReviveBatchIs(db: Db, base: Db, ids: set<NoteId>, now: Time)
    requires ids <= db.notes.Keys && base == db.(notes := base.notes) && base.notes.Keys == db.notes.Keys
    requires forall n :: n in ids ==> base.notes[n] == db.notes[n]
    ensures var b := ReviveBatch(db, ids);
            && Proper(b) && b.rows.Keys == ids
            && Applied(base, b, now) == Reconcile(base.(notes := RevivedNotes(base, ids)), KeepOffsets(base, ids), now)
  {
    hide Reconcile, EnabledOffsets;
    assert ids * db.notes.Keys == ids;
    SameRules(db, base);
    var rows := ReviveBatch(db, ids).rows;
    forall n | n in base.notes ensures (base.notes + rows)[n] == RevivedNotes(base, ids)[n] {
    }
    assert base.notes + rows == RevivedNotes(base, ids);
    assert KeepOffsets(base, ids).wanted == KeepOffsets(db, ids).wanted;
  }

  lemma ReviveProper(db: Db, ids: set<NoteId>)
    ensures Proper(ReviveBatch(db, ids)) && ReviveBatch(db, ids).rows.Keys == ids * db.notes.Keys
  {
    hide EnabledOffsets;
  }

  lemma SameRules(a: Db, b: Db)
    requires b.rules == a.rules
    ensures forall n :: EnabledOffsets(b, n) == EnabledOffsets(a, n)
  {
  }

  /** A reconciliation reads the notes of its plan only. */
  lemma OtherNotes(a: Db, b: Db, p: Plan, now: Time)
    requires p.wanted.Keys <= a.notes.Keys && b == a.(notes := b.notes) && b.notes.Keys == a.notes.Keys
    requires forall n :: n in p.wanted ==> b.notes[n] == a.notes[n]
    ensures Reconcile(b, p, now) == Reconcile(a, p, now).(notes := b.notes)
  {
    hide Reconcile, DeliveryAfter, RuleAfter, IsNewRule, IsNewCycle;
    var a', b' := Reconcile(a, p, now), Reconcile(b, p, now);
    forall k: RuleKey ensures (k in b'.rules <==> k in a'.rules) && (k in a'.rules ==> b'.rules[k] == a'.rules[k]) {
      RuleRow(a, p, now, k);
      RuleRow(b, p, now, k);
      OtherRule(a, b, p, k);
    }
    assert b'.rules == a'.rules;
    forall dk: DeliveryKey
      ensures dk in b'.deliveries <==> dk in a'.deliveries
      ensures dk in a'.deliveries ==> b'.deliveries[dk] == a'.deliveries[dk]
    {
      DeliveryRow(a, p, now, dk);
      DeliveryRow(b, p, now, dk);
      OtherDelivery(a, b, p, now, dk);
    }
    assert b'.deliveries == a'.deliveries;
  }

  lemma OtherRule(a: Db, b: Db, p: Plan, k: RuleKey)
    requires b == a.(notes := b.notes)
    ensures (IsNewRule(b, p, k) <==> IsNewRule(a, p, k)) && RuleAfter(b, p, k) == RuleAfter(a, p, k)
  {
  }

  lemma OtherDelivery(a: Db, b: Db, p: Plan, now: Time, dk: DeliveryKey)
    requires p.wanted.Keys <= a.notes.Keys && b == a.(notes := b.notes) && b.notes.Keys == a.notes.Keys
    requires forall n :: n in p.wanted ==> b.notes[n] == a.notes[n]
    ensures (IsNewCycle(b, p, dk) <==> IsNewCycle(a, p, dk)) && (IsNewCycle(a, p, dk) ==> dk.rule.note in p.wanted)
    ensures dk in a.deliveries || dk.rule.note in p.wanted ==>
              DeliveryAfter(b, p, now, dk) == DeliveryAfter(a, p, now, dk)
  {
  }

  method LiftMarks(session: Session, s: SeriesId, boundary: Time, now: Time)
    requires StoreInv(session.db) && s in session.db.series
    modifies session`db
    ensures session.db == MarksLifted(old(session.db), s, boundary, now)
  {
    hide StoreInv, Reconcile, RevivedNotes, KeepOffsets, StayingDeleted, Revived;
    ghost var db := session.db;
    LiftEach(session, s, boundary, now);
    BaseIs(db, StayingDeleted(db, s, boundary));
    var series := session.db.series[s];
    series := series.(version := series.version + 1);
    session.db := session.db.(series := session.db.series[s := series],
      outbox := session.db.outbox + [Event(SeriesUpdated, SeriesEntity(s), series.version)]);
  }

  /** The range split up: notes that stay deleted, notes that come back. */
  lemma RangeParts(db: Db, s: SeriesId, boundary: Time)
    ensures var ids := MarkedFrom(db, s, boundary);
            var a, b := StayingDeleted(db, s, boundary), Revived(db, s, boundary);
            && a !! b && a + b == ids && ids <= db.notes.Keys
            && forall n :: n in ids ==> if CancelledAlone(db, s, n) then n in a else n in b
  {
  }

  method LiftEach(session: Session, s: SeriesId, boundary: Time, now: Time)
    requires StoreInv(session.db)
    modifies session`db
    ensures var base := Unmarked(old(session.db), StayingDeleted(old(session.db), s, boundary));
            var revived := Revived(old(session.db), s, boundary);
            && revived <= base.notes.Keys
            && session.db == Reconcile(base.(notes := RevivedNotes(base, revived)), KeepOffsets(base, revived), now)
  {
    hide StoreInv, Reconcile, Underway, RulesOwned, Numbered, Applied, ReviveBatch, RevivedNotes, KeepOffsets, Unmarked,
         CancelledAlone, StayingDeleted, Revived, MarkedFrom;
    ghost var db := session.db;
    var ids := MarkedFrom(session.db, s, boundary);
    var notes := Listing(ids);
    ghost var staying, revived := StayingDeleted(db, s, boundary), Revived(db, s, boundary);
    ghost var done: set<NoteId> := {};
    RangeParts(db, s, boundary);
    StoreNumbered(db);
    NothingLifted(db, staying, revived, now);
    for i := 0 to |notes|
      invariant done == Elements(notes[..i])
      invariant Underway(Unmarked(db, done * staying), session.db, ReviveBatch(db, revived), done * revived, now)
      invariant session.db.noteTags == db.noteTags
    {
      var n := notes[i];
      assert n in Elements(notes) && n !in done;
      assert notes[..i + 1] == notes[..i] + [n];
      LiftMark(session, s, n, now, db, staying, revived, done);
      done := done + {n};
    }
    assert notes[..|notes|] == notes;
    assert done == staying + revived;
    AllLifted(db, session.db, staying, revived, now);
  }

  lemma NothingLifted(db: Db, staying: set<NoteId>, revived: set<NoteId>, now: Time)
    ensures Underway(Unmarked(db, {} * staying), db, ReviveBatch(db, revived), {} * revived, now)
  {
    hide Underway, ReviveBatch, Unmarked;
    NothingUnmarked(db);
    ReviveProper(db, revived);
    Begin(db, ReviveBatch(db, revived), now);
    assert {} * staying == {} && {} * revived == {};
  }

  lemma AllLifted(db: Db, cur: Db, staying: set<NoteId>, revived: set<NoteId>, now: Time)
    requires staying !! revived && revived <= db.notes.Keys && cur.noteTags == db.noteTags
    requires var done := staying + revived;
             Underway(Unmarked(db, done * staying), cur, ReviveBatch(db, revived), done * revived, now)
    ensures var base := Unmarked(db, staying);
            && revived <= base.notes.Keys
            && cur == Reconcile(base.(notes := RevivedNotes(base, revived)), KeepOffsets(base, revived), now)
  {
    hide Reconcile, Underway, Applied, ReviveBatch, RevivedNotes, KeepOffsets, Unmarked;
    assert (staying + revived) * staying == staying && (staying + revived) * revived == revived;
    var base := Unmarked(db, staying);
    BaseIs(db, staying);
    ReviveProper(db, revived);
    assert revived * db.notes.Keys == revived;
    Finish(base, cur, ReviveBatch(db, revived), revived, now);
    ReviveBatchIs(db, base, revived, now);
  }

  // One turn of `for note in notes`.
  method LiftMark(session: Session, s: SeriesId, n: NoteId, now: Time, ghost db: Db, ghost staying: set<NoteId>,
                  ghost revived: set<NoteId>, ghost done: set<NoteId>)
    requires n in db.notes && n !in done && revived <= db.notes.Keys && staying !! revived
    requires if CancelledAlone(db, s, n) then n in staying else n in revived
    requires RulesOwned(db) && Numbered(db)
    requires Underway(Unmarked(db, done * staying), session.db, ReviveBatch(db, revived), done * revived, now)
    modifies session`db
    ensures Underway(Unmarked(db, (done + {n}) * staying), session.db, ReviveBatch(db, revived),
                     (done + {n}) * revived, now)
    ensures session.db.noteTags == old(session.db).noteTags
  {
    hide Reconcile, Underway, RulesOwned, Numbered, EnabledOffsets, Unmarked, ReviveBatch, CancelledAlone;
    ghost var base, b := Unmarked(db, done * staying), ReviveBatch(db, revived);
    Unreached(db, session.db, revived, done * staying, done * revived, n, now);
    SameException(db, session.db, s, n);
    var note := session.db.notes[n];
    note := note.(seriesTrashedAt := None, version := note.version + 1);
    if !CancelledAlone(session.db, s, n) {
      assert (done + {n}) * staying == done * staying && (done + {n}) * revived == done * revived + {n};
      note := note.(deletedAt := None);
      var offsets := EnabledOffsets(session.db, n);
      BaseIs(db, done * staying);
      StillNumbered(db, base);
      ReviveRows(db, revived, n);
      WriteAndReconcile(session, n, note, offsets, false, now, base, b, done * revived);
    } else {
      assert (done + {n}) * staying == done * staying + {n} && (done + {n}) * revived == done * revived;
      OneUnmarked(db, session.db, revived, done * staying, done * revived, n, now);
      session.db := session.db.(notes := session.db.notes[n := note]);
    }
  }

  lemma NothingUnmarked(db: Db)
    ensures Unmarked(db, {}) == db
  {
  }

  lemma BaseIs(db: Db, ids: set<NoteId>)
    ensures var base := Unmarked(db, ids);
            && base.notes.Keys == db.notes.Keys && base.rules == db.rules && base.deliveries == db.deliveries
            && base == db.(notes := base.notes)
            && forall n :: n in db.notes && n !in ids ==> base.notes[n] == db.notes[n]
  {
  }

  lemma SameException(a: Db, b: Db, s: SeriesId, n: NoteId)
    requires n in a.notes && n in b.notes && b.notes[n] == a.notes[n] && b.exceptions == a.exceptions
    ensures CancelledAlone(b, s, n) <==> CancelledAlone(a, s, n)
  {
  }

  lemma ReviveRows(db: Db, ids: set<NoteId>, n: NoteId)
    requires n in ids && n in db.notes
    ensures var b := ReviveBatch(db, ids);
            && n in b.rows && b.rows[n] == ReviveRow(db.notes[n]) && n in b.plan.wanted
            && b.plan.wanted[n] == EnabledOffsets(db, n) && n !in b.plan.moved
  {
    hide EnabledOffsets;
  }

  lemma Unreached(db: Db, cur: Db, revived: set<NoteId>, marked: set<NoteId>, done: set<NoteId>, n: NoteId, now: Time)
    requires n in db.notes && n !in marked && n !in done && revived <= db.notes.Keys
    requires Underway(Unmarked(db, marked), cur, ReviveBatch(db, revived), done, now)
    ensures n in cur.notes && cur.notes[n] == db.notes[n] && cur.exceptions == db.exceptions
    ensures n in revived ==> EnabledOffsets(cur, n) == EnabledOffsets(db, n)
  {
    hide EnabledOffsets;
    if n in revived {
      ReviveRows(db, revived, n);
      NotReached(Unmarked(db, marked), cur, ReviveBatch(db, revived), done, n, now);
      SameRules(db, Unmarked(db, marked));
    }
  }

  /** Lifting the mark of a note that no plan covers passes through the reconciliation. */
  lemma OneUnmarked(db: Db, cur: Db, revived: set<NoteId>, marked: set<NoteId>, done: set<NoteId>, n: NoteId, now: Time)
    requires n in db.notes && n !in marked && n !in revived && revived <= db.notes.Keys
    requires Underway(Unmarked(db, marked), cur, ReviveBatch(db, revived), done, now)
    ensures Underway(Unmarked(db, marked + {n}), cur.(notes := cur.notes[n := UnmarkRow(db.notes[n])]),
                     ReviveBatch(db, revived), done, now)
  {
    hide Reconcile, ReviveBatch, Unmarked;
    ReviveProper(db, revived);
    var b := Only(ReviveBatch(db, revived), done);
    var a, c := Unmarked(db, marked), Unmarked(db, marked + {n});
    OneMoreUnmarked(db, marked, n);
    BaseIs(db, marked);
    assert c.notes + b.rows == (a.notes + b.rows)[n := UnmarkRow(db.notes[n])];
    OtherNotes(a.(notes := a.notes + b.rows), c.(notes := c.notes + b.rows), b.plan, now);
  }

  lemma OneMoreUnmarked(db: Db, marked: set<NoteId>, n: NoteId)
    requires n in db.notes
    ensures var a, c := Unmarked(db, marked), Unmarked(db, marked + {n});
            c == a.(notes := a.notes[n := UnmarkRow(db.notes[n])])
  {
    assert Unmarked(db, marked + {n}).notes == Unmarked(db, marked).notes[n := UnmarkRow(db.notes[n])];
  }
}

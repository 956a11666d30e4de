/** backend/app/api/router.py: trashing a series portion and restoring an action as a unit. */
module TrashActions {
  import opened Prelude
  import opened Storage
  import opened Reconciliation
  import opened Progress
  import opened Invariants
  import opened Lineage
  import opened Store
  import opened Api
  import opened Batches

  // _locked_series
  function LockedSeries(db: Db, s: SeriesId, expected: int): Option<ApiError> {
    if s !in db.series || db.series[s].purgedAt.Some? then Some(NotFound)
    else if db.series[s].version != expected then Some(VersionConflict)
    else None
  }

  // ---------- the common form: relabel some notes of a series and reconcile them ----------

  function KeepOffsets(db: Db, ids: set<NoteId>): Plan {
    Plan(map n | n in ids :: EnabledOffsets(db, n), {})
  }

  function Relabelled(db: Db, s: SeriesId, notes: map<NoteId, Note>, ids: set<NoteId>,
                      actions: map<ActionId, Action>, members: set<Membership>, now: Time): Db
    requires ids <= notes.Keys && s in db.series
  {
    var db' := Reconcile(db.(notes := notes), KeepOffsets(db, ids), now);
    var series := db.series[s].(version := db.series[s].version + 1);
    db'.(series := db.series[s := series], actions := actions, members := members,
         outbox := db.outbox + [Event(SeriesUpdated, SeriesEntity(s), series.version)])
  }

  /** A relabelled row keeps its slot and schedule. */
  predicate SameOccurrence(n: Note, n': Note) {
    SameSlotRow(n, n') && n'.startsAt == n.startsAt && n.purgedAt.None? && n'.purgedAt.None?
  }

  ghost predicate RelabelsOnly(db: Db, notes: map<NoteId, Note>, ids: set<NoteId>) {
    && notes.Keys == db.notes.Keys && ids <= db.notes.Keys
    && (forall n :: n in db.notes ==>
          if n in ids then SameOccurrence(db.notes[n], notes[n]) else notes[n] == db.notes[n])
  }

  lemma RelabelFrozen(db: Db, s: SeriesId, notes: map<NoteId, Note>, ids: set<NoteId>,
                      actions: map<ActionId, Action>, members: set<Membership>, now: Time)
    requires RelabelsOnly(db, notes, ids) && s in db.series && db.series[s].purgedAt.None?
    ensures var c := Relabelled(db, s, notes, ids, actions, members, now);
            NotesFrozen(db, c) && SeriesFrozen(db, c)
  {
    hide Reconcile, EnabledOffsets;
    var c := Relabelled(db, s, notes, ids, actions, members, now);
    ReconcileLocal(db.(notes := notes), KeepOffsets(db, ids), now);
    assert forall n :: Purged(db, n) || Purged(c, n) ==> n !in ids && SameNote(db, c, n);
  }

  lemma RelabelSlots(db: Db, s: SeriesId, notes: map<NoteId, Note>, ids: set<NoteId>,
                     actions: map<ActionId, Action>, members: set<Membership>, now: Time)
    requires RelabelsOnly(db, notes, ids) && s in db.series && SlotInv(db) && LineageInv(db.series)
    ensures var c := Relabelled(db, s, notes, ids, actions, members, now);
            SlotInv(c) && LineageInv(c.series)
  {
    hide Reconcile, LineageInv;
    var c := Relabelled(db, s, notes, ids, actions, members, now);
    SameLinksKeepLineage(db.series, c.series);
    forall n | n in c.notes ensures Slotted(c, n) && SameSlotRow(db.notes[n], c.notes[n]) {
      assert Slotted(db, n);
    }
    forall m, n | m in c.notes && n in c.notes && SameSlot(c.notes[m], c.notes[n]) ensures m == n {
      assert SameSlotRow(db.notes[m], c.notes[m]) && SameSlotRow(db.notes[n], c.notes[n]);
      assert SameSlot(db.notes[m], db.notes[n]);
    }
  }

  lemma RelabelKeeps(db: Db, s: SeriesId, notes: map<NoteId, Note>, ids: set<NoteId>,
                     actions: map<ActionId, Action>, members: set<Membership>, now: Time)
    requires StoreInv(db) && RelabelsOnly(db, notes, ids) && s in db.series && db.series[s].purgedAt.None?
    requires var c := Relabelled(db, s, notes, ids, actions, members, now); TrashInv(c) && ActionsAdvance(db, c)
    ensures Keeps(db, Relabelled(db, s, notes, ids, actions, members, now))
  {
    hide ReminderInv, SlotInv, LineageInv, RedactionInv, NotesFrozen, SeriesFrozen, Reconcile, TrashInv,
         ActionsAdvance, Advances, PlanCovers;
    var c := Relabelled(db, s, notes, ids, actions, members, now);
    RelabelFrozen(db, s, notes, ids, actions, members, now);
    RelabelSlots(db, s, notes, ids, actions, members, now);
    RelabelCovers(db, notes, ids);
    TransactionKeeps(db, notes, KeepOffsets(db, ids), now, c);
  }

  lemma RelabelCovers(db: Db, notes: map<NoteId, Note>, ids: set<NoteId>)
    requires RelabelsOnly(db, notes, ids)
    ensures PlanCovers(db, notes, KeepOffsets(db, ids))
  {
  }

  // ---------- trash_series_portion ----------

  function SeriesKeys(db: Db, s: SeriesId): set<Time> {
    set n | n in db.notes && db.notes[n].seriesId == Some(s) && db.notes[n].recurrenceKey.Some?
            && db.notes[n].supersededAt.None? :: db.notes[n].recurrenceKey.value
  }

  // _portion_boundary: the requested key, or the least one.
  ghost predicate IsBoundary(db: Db, s: SeriesId, requested: Option<Time>, boundary: Time) {
    match requested
    case Some(key) => boundary == key && key in SeriesKeys(db, s)
    case None => IsLeast(boundary, SeriesKeys(db, s))
  }

  function Portion(db: Db, s: SeriesId, boundary: Time): set<NoteId> {
    set n | n in db.notes && db.notes[n].seriesId == Some(s) && db.notes[n].recurrenceKey.Some?
            && db.notes[n].recurrenceKey.value >= boundary
            && db.notes[n].deletedAt.None? && db.notes[n].supersededAt.None? && db.notes[n].purgedAt.None?
  }

  function TrashRow(n: Note, a: ActionId, now: Time): Note {
    n.(deletedAt := Some(now), action := Some(a), version := n.version + 1)
  }

  function TrashedNotes(db: Db, ids: set<NoteId>, a: ActionId, now: Time): map<NoteId, Note> {
    map n | n in db.notes :: if n in ids then TrashRow(db.notes[n], a, now) else db.notes[n]
  }

  function Enrolments(a: ActionId, ids: set<NoteId>): set<Membership> {
    set n | n in ids :: Membership(a, n)
  }

  /** The portion from `boundary` on goes to the trash as action `a`, sealed. */
  function Trashed(db: Db, s: SeriesId, boundary: Time, a: ActionId, now: Time): Db
    requires s in db.series
  {
    var ids := Portion(db, s, boundary);
    Relabelled(db, s, TrashedNotes(db, ids, a, now), ids,
               db.actions[a := Action(s, boundary, now, true)], db.members + Enrolments(a, ids), now)
  }

  /** The seal trigger of migration 0004, lines 218-236, over the state it is fired in. */
  ghost predicate SealAllowed(db: Db, a: ActionId) {
    && a in db.actions
    && (exists m :: m in db.members && m.action == a)
    && (forall m :: m in db.members && m.action == a ==> Pinned(db, a, m.note))
    && (forall n :: n in db.notes && db.notes[n].action == Some(a) ==> Membership(a, n) in db.members)
  }

  lemma TrashedMembers(db: Db, s: SeriesId, boundary: Time, a: ActionId, now: Time)
    requires TrashInv(db) && s in db.series && a !in db.actions
    ensures var c := Trashed(db, s, boundary, a, now);
            && (forall n :: n in c.notes ==> PointsHome(c, n))
            && (forall m :: m in c.members ==> Enrolled(c, m))
            && ActionsAdvance(db, c)
  {
    hide Reconcile, EnabledOffsets;
    var c := Trashed(db, s, boundary, a, now);
    NoPointersIn(db, a);
    forall n | n in c.notes ensures PointsHome(c, n) { assert PointsHome(db, n); }
    forall m | m in c.members ensures Enrolled(c, m) {
      if m in db.members { assert Enrolled(db, m); }
    }
    forall x | x in db.actions ensures ActionAdvances(db, c, x) {
    }
  }

  lemma TrashedPins(db: Db, s: SeriesId, boundary: Time, a: ActionId, now: Time, m: Membership, n: NoteId)
    requires TrashInv(db) && s in db.series && a !in db.actions
    requires var c := Trashed(db, s, boundary, a, now);
             m in c.members && (m.action == a || (n in c.notes && c.notes[n].action == Some(m.action)))
    ensures Pinned(Trashed(db, s, boundary, a, now), m.action, m.note)
  {
    hide Reconcile, EnabledOffsets;
    NoPointersIn(db, a);
    if m.action != a { OldMemberPinned(db, Portion(db, s, boundary), m, n); }
  }

  lemma TrashedTrash(db: Db, s: SeriesId, boundary: Time, a: ActionId, now: Time)
    requires TrashInv(db) && s in db.series && a !in db.actions && Portion(db, s, boundary) != {}
    ensures var c := Trashed(db, s, boundary, a, now);
            TrashInv(c) && ActionsAdvance(db, c) && SealAllowed(c, a) && OpenAction(c, a)
  {
    hide Reconcile, EnabledOffsets, Portion, Pinned, ActionAdvances;
    var ids := Portion(db, s, boundary);
    var c := Trashed(db, s, boundary, a, now);
    TrashedMembers(db, s, boundary, a, now);
    NonEmpty(ids);
    var some :| some in ids;
    assert Membership(a, some) in c.members;
    forall x | x in c.actions ensures Sound(c, x) {
      if x != a { assert Sound(db, x); var m :| m in db.members && m.action == x; assert m in c.members; }
    }
    forall m, n | m in c.members && n in c.notes && c.notes[n].action == Some(m.action)
      ensures Pinned(c, m.action, m.note)
    {
      TrashedPins(db, s, boundary, a, now, m, n);
    }
    forall m | m in c.members && m.action == a ensures Pinned(c, a, m.note) {
      TrashedPins(db, s, boundary, a, now, m, m.note);
    }
    forall n | n in c.notes && c.notes[n].action == Some(a) ensures Membership(a, n) in c.members {
      assert PointsHome(c, n);
    }
  }

  lemma NoPointersIn(db: Db, a: ActionId)
    requires TrashInv(db) && a !in db.actions
    ensures forall n :: n in db.notes ==> db.notes[n].action != Some(a)
    ensures forall m :: m in db.members ==> m.action != a
  {
  }

  /** The members of an open action are in the trash, so no portion picks them. */
  lemma OldMemberPinned(db: Db, ids: set<NoteId>, m: Membership, n: NoteId)
    requires TrashInv(db) && m in db.members && n in db.notes && db.notes[n].action == Some(m.action)
    requires forall x :: x in ids ==> x in db.notes && db.notes[x].deletedAt.None?
    ensures Pinned(db, m.action, m.note) && m.note !in ids
  {
  }

  lemma TrashKeeps(db: Db, s: SeriesId, boundary: Time, a: ActionId, now: Time)
    requires StoreInv(db) && s in db.series && db.series[s].purgedAt.None? && a !in db.actions
    requires Portion(db, s, boundary) != {}
    ensures Keeps(db, Trashed(db, s, boundary, a, now)) && SealAllowed(Trashed(db, s, boundary, a, now), a)
    ensures OpenAction(Trashed(db, s, boundary, a, now), a)
  {
    hide ReminderInv, SlotInv, LineageInv, RedactionInv, TrashInv, ActionsAdvance, Advances, Reconcile, OpenAction,
         SealAllowed, EnabledOffsets;
    var ids := Portion(db, s, boundary);
    TrashedTrash(db, s, boundary, a, now);
    RelabelKeeps(db, s, TrashedNotes(db, ids, a, now), ids,
                 db.actions[a := Action(s, boundary, now, true)], db.members + Enrolments(a, ids), now);
  }

  // ---------- _restore_trash_action ----------

  function MembersOf(db: Db, a: ActionId): set<NoteId> {
    set m | m in db.members && m.action == a && m.note in db.notes :: m.note
  }

  function RestoreRow(n: Note): Note {
    n.(deletedAt := None, action := None, version := n.version + 1)
  }

  function RestoredNotes(db: Db, ids: set<NoteId>): map<NoteId, Note> {
    map n | n in db.notes :: if n in ids then RestoreRow(db.notes[n]) else db.notes[n]
  }

  function Restored(db: Db, a: ActionId, now: Time): Db
    requires a in db.actions && db.actions[a].series in db.series
  {
    var ids := MembersOf(db, a);
    Relabelled(db, db.actions[a].series, RestoredNotes(db, ids), ids, db.actions, db.members, now)
  }

  datatype Selected = Selected(note: NoteId, version: int)

  function RestoreError(db: Db, a: ActionId, expected: int, selected: Option<Selected>, now: Time): Option<ApiError> {
    if a !in db.actions then Some(TrashActionNotFound)
    else
      var locked := LockedSeries(db, db.actions[a].series, expected);
      if locked.Some? then locked
      else
        var ids := MembersOf(db, a);
        var current := set n | n in ids && db.notes[n].action == Some(a);
        if current == {} then Some(NothingToRestore)
        else if |current| != |ids| then Some(TrashInvariantBreach)
        else if selected.Some? && selected.value.note !in ids then Some(NotFound)
        else if selected.Some? && db.notes[selected.value.note].version != selected.value.version
        then Some(VersionConflict)
        else if db.actions[a].trashedAt <= now - RETENTION then Some(RetentionExpired)
        else None
  }

  function RestoreAction(db: Db, a: ActionId, expected: int, selected: Option<Selected>, now: Time)
    : Result<Db, ApiError>
  {
    match RestoreError(db, a, expected, selected, now)
    case Some(e) => Failure(e)
    case None => Success(Restored(db, a, now))
  }

  /** The breach the code guards against cannot happen: an action is open or closed whole. */
  lemma NoBreach(db: Db, a: ActionId, expected: int, selected: Option<Selected>, now: Time)
    requires TrashInv(db)
    ensures RestoreError(db, a, expected, selected, now) != Some(TrashInvariantBreach)
  {
    if a in db.actions {
      var ids := MembersOf(db, a);
      var current := set n | n in ids && db.notes[n].action == Some(a);
      if current != {} {
        var x :| x in current;
        forall n | n in ids ensures n in current {
          assert Membership(a, n) in db.members;
          assert Pinned(db, a, n);
        }
        assert current == ids;
      }
    }
  }

  /** An action is restorable only while it is open. */
  lemma RestorableIsOpen(db: Db, a: ActionId, expected: int, selected: Option<Selected>, now: Time)
    requires TrashInv(db) && RestoreAction(db, a, expected, selected, now).Success?
    ensures a in db.actions && OpenAction(db, a) && !Closed(db, a)
    ensures db.actions[a].series in db.series && db.series[db.actions[a].series].purgedAt.None?
    ensures MembersOf(db, a) != {} && forall n :: n in MembersOf(db, a) ==> Pinned(db, a, n)
  {
    var ids := MembersOf(db, a);
    var current := set n | n in ids && db.notes[n].action == Some(a);
    var x :| x in current;
    assert !Closed(db, a);
    OpenOrClosed(db, a);
  }

  lemma RestoredTrash(db: Db, a: ActionId, now: Time)
    requires TrashInv(db) && a in db.actions && db.actions[a].series in db.series && OpenAction(db, a)
    ensures var c := Restored(db, a, now); TrashInv(c) && ActionsAdvance(db, c) && Closed(c, a)
  {
    hide Reconcile, EnabledOffsets;
    var ids := MembersOf(db, a);
    var c := Restored(db, a, now);
    forall n | n in c.notes ensures PointsHome(c, n) { assert PointsHome(db, n); }
    forall m | m in c.members ensures Enrolled(c, m) { assert Enrolled(db, m); }
    forall x | x in c.actions ensures Sound(c, x) { assert Sound(db, x); }
    forall n | n in c.notes ensures c.notes[n].action != Some(a) {
      if db.notes[n].action == Some(a) { assert PointsHome(db, n); }
    }
    forall m, n | m in c.members && n in c.notes && c.notes[n].action == Some(m.action)
      ensures Pinned(c, m.action, m.note)
    {
      assert n !in ids && Pinned(db, m.action, m.note);
      InOneAction(db, a, m.action, m.note);
    }
  }

  /** A note is an intact member of at most one open action. */
  lemma InOneAction(db: Db, a: ActionId, b: ActionId, n: NoteId)
    requires OpenAction(db, a) && a != b && Pinned(db, b, n)
    ensures n !in MembersOf(db, a)
  {
  }

  lemma RestoreActionKeeps(db: Db, a: ActionId, expected: int, selected: Option<Selected>, now: Time)
    requires StoreInv(db) && RestoreAction(db, a, expected, selected, now).Success?
    ensures var c := RestoreAction(db, a, expected, selected, now).value; Keeps(db, c) && Closed(c, a)
  {
    hide ReminderInv, SlotInv, LineageInv, RedactionInv, TrashInv, ActionsAdvance, Advances, Reconcile, OpenAction,
         EnabledOffsets, Closed;
    RestorableIsOpen(db, a, expected, selected, now);
    RestoredTrash(db, a, now);
    var ids := MembersOf(db, a);
    forall n | n in ids ensures SameOccurrence(db.notes[n], RestoredNotes(db, ids)[n]) {
      assert Pinned(db, a, n);
    }
    RelabelKeeps(db, db.actions[a].series, RestoredNotes(db, ids), ids, db.actions, db.members, now);
  }

  // ---------- the transactions, note by note ----------

  /** What trash_series_portion answers and does; `a` is the id of the new action. */
  ghost predicate TrashOutcome(db: Db, s: SeriesId, version: int, requested: Option<Time>, a: ActionId, now: Time,
                               r: Result<(), ApiError>, after: Db)
  {
    if LockedSeries(db, s, version).Some? then r == Failure(LockedSeries(db, s, version).value) && after == db
    else if requested.None? && SeriesKeys(db, s) == {} then r == Failure(EmptySeries) && after == db
    else if requested.Some? && requested.value !in SeriesKeys(db, s)
    then r == Failure(OccurrenceNotFound) && after == db
    else exists boundary :: IsBoundary(db, s, requested, boundary) && BoundaryOutcome(db, s, boundary, a, now, r, after)
  }

  ghost predicate BoundaryOutcome(db: Db, s: SeriesId, boundary: Time, a: ActionId, now: Time,
                                  r: Result<(), ApiError>, after: Db)
    requires s in db.series
  {
    if Portion(db, s, boundary) == {} then r == Failure(EmptySeries) && after == db
    else r.Success? && after == Trashed(db, s, boundary, a, now)
  }

  // lines 1108-1170
  method TrashSeriesPortionTx(session: Session, s: SeriesId, version: int, requested: Option<Time>, now: Time)
    returns (r: Result<(), ApiError>, a: ActionId)
    requires StoreInv(session.db) && session.nextUuid !in session.db.actions
    modifies session
    ensures a == old(session.nextUuid)
    ensures TrashOutcome(old(session.db), s, version, requested, a, now, r, session.db)
  {
    hide StoreInv, Trashed, Portion, SeriesKeys;
    a := session.Uuid();
    ghost var db := session.db;
    if s !in session.db.series || session.db.series[s].purgedAt.Some? { return Failure(NotFound), a; }
    if session.db.series[s].version != version { return Failure(VersionConflict), a; }
    var keys := SeriesKeys(session.db, s);
    if requested.None? && keys == {} { return Failure(EmptySeries), a; }
    if requested.Some? && requested.value !in keys { return Failure(OccurrenceNotFound), a; }
    var boundary;
    if requested.Some? { boundary := requested.value; } else { boundary := Least(keys); }
    assert IsBoundary(db, s, requested, boundary);
    if Portion(session.db, s, boundary) == {} {
      r := Failure(EmptySeries);
      assert BoundaryOutcome(db, s, boundary, a, now, r, session.db);
      return;
    }
    TrashNotes(session, s, boundary, a, now);
    r := Success(());
    assert BoundaryOutcome(db, s, boundary, a, now, r, session.db);
  }

  method TrashNotes(session: Session, s: SeriesId, boundary: Time, a: ActionId, now: Time)
    requires StoreInv(session.db) && s in session.db.series && session.db.series[s].purgedAt.None?
    requires a !in session.db.actions && Portion(session.db, s, boundary) != {}
    modifies session`db
    ensures session.db == Trashed(old(session.db), s, boundary, a, now)
    // the update that seals the action passes the trigger
    ensures SealAllowed(session.db, a)
  {
    hide StoreInv, Reconcile, SealAllowed, Portion, Advances, OpenAction;
    ghost var db := session.db;
    var notes := TrashEach(session, s, boundary, a, now);
    var series := session.db.series[s];
    series := series.(version := series.version + 1);
    var action := Action(s, boundary, now, true);
    session.db := session.db.(
      series := session.db.series[s := series],
      actions := session.db.actions[a := action],
      members := session.db.members + Enrolments(a, notes),
      outbox := session.db.outbox + [Event(SeriesUpdated, SeriesEntity(s), series.version)]);
    TrashKeeps(db, s, boundary, a, now);
  }

  ghost function TrashBatch(db: Db, ids: set<NoteId>, a: ActionId, now: Time): Batch {
    Batch(map n | n in ids && n in db.notes :: TrashRow(db.notes[n], a, now), KeepOffsets(db, ids * db.notes.Keys))
  }

  lemma TrashBatchIs(db: Db, ids: set<NoteId>, a: ActionId, now: Time)
    requires ids <= db.notes.Keys
    ensures var b := TrashBatch(db, ids, a, now);
            && Proper(b) && b.rows.Keys == ids
            && Applied(db, b, now) == Reconcile(db.(notes := TrashedNotes(db, ids, a, now)), KeepOffsets(db, ids), now)
  {
    hide Reconcile, EnabledOffsets;
    assert ids * db.notes.Keys == ids;
    assert db.notes + TrashBatch(db, ids, a, now).rows == TrashedNotes(db, ids, a, now);
  }

  method TrashEach(session: Session, s: SeriesId, boundary: Time, a: ActionId, now: Time)
    returns (ids: set<NoteId>)
    requires StoreInv(session.db)
    modifies session`db
    ensures ids == Portion(old(session.db), s, boundary) && ids <= old(session.db).notes.Keys
    ensures session.db == Reconcile(old(session.db).(notes := TrashedNotes(old(session.db), ids, a, now)),
                                    KeepOffsets(old(session.db), ids), now)
  {
    hide StoreInv, Reconcile, Portion, Underway, RulesOwned, Numbered, Applied, TrashBatch, TrashedNotes, KeepOffsets;
    ghost var db := session.db;
    ids := Portion(session.db, s, boundary);
    PortionRows(db, s, boundary);
    var notes := Listing(ids);
    ghost var b := TrashBatch(db, ids, a, now);
    ghost var done: set<NoteId> := {};
    TrashBatchIs(db, ids, a, now);
    StoreNumbered(db);
    Begin(db, b, now);
    for i := 0 to |notes|
      invariant done == Elements(notes[..i])
      invariant Underway(db, session.db, b, done, now) && session.db.noteTags == db.noteTags
    {
      var n := notes[i];
      assert n in Elements(notes) && n !in done;
      assert notes[..i + 1] == notes[..i] + [n];
      TrashOne(session, n, a, now, db, ids, done);
      done := done + {n};
    }
    assert notes[..|notes|] == notes;
    Finish(db, session.db, b, done, now);
  }

  method TrashOne(session: Session, n: NoteId, a: ActionId, now: Time, ghost db: Db, ghost ids: set<NoteId>,
                  ghost done: set<NoteId>)
    requires ids <= db.notes.Keys && n in ids && n !in done && RulesOwned(db) && Numbered(db)
    requires Underway(db, session.db, TrashBatch(db, ids, a, now), done, now)
    modifies session`db
    ensures Underway(db, session.db, TrashBatch(db, ids, a, now), done + {n}, now)
    ensures session.db.noteTags == old(session.db).noteTags
  {
    hide Reconcile, Underway, RulesOwned, Numbered, EnabledOffsets;
    ghost var b := TrashBatch(db, ids, a, now);
    NotReached(db, session.db, b, done, n, now);
    var note := session.db.notes[n];
    note := note.(deletedAt := Some(now), action := Some(a), version := note.version + 1);
    var offsets := EnabledOffsets(session.db, n);
    WriteAndReconcile(session, n, note, offsets, false, now, db, b, done);
  }

  lemma PortionRows(db: Db, s: SeriesId, boundary: Time)
    ensures Portion(db, s, boundary) <= db.notes.Keys
  {
  }

  // lines 1173-1243
  method RestoreTrashActionTx(session: Session, a: ActionId, version: int, selected: Option<Selected>, now: Time)
    returns (r: Result<(), ApiError>)
    requires StoreInv(session.db)
    modifies session`db
    ensures match RestoreAction(old(session.db), a, version, selected, now)
            case Success(db) => r.Success? && session.db == db
            case Failure(e) => r == Failure(e) && session.db == old(session.db)
  {
    hide StoreInv, Restored, MembersOf;
    if a !in session.db.actions { return Failure(TrashActionNotFound); }
    var action := session.db.actions[a];
    var s := action.series;
    if s !in session.db.series || session.db.series[s].purgedAt.Some? { return Failure(NotFound); }
    if session.db.series[s].version != version { return Failure(VersionConflict); }
    var members := MembersOf(session.db, a);
    MemberRows(session.db, a);
    var current := set n | n in members && session.db.notes[n].action == Some(a);
    if current == {} { return Failure(NothingToRestore); }
    if |current| != |members| { return Failure(TrashInvariantBreach); }
    if selected.Some? {
      if selected.value.note !in members { return Failure(NotFound); }
      if session.db.notes[selected.value.note].version != selected.value.version { return Failure(VersionConflict); }
    }
    if action.trashedAt <= now - RETENTION { return Failure(RetentionExpired); }
    RestoreNotes(session, a, version, selected, now);
    r := Success(());
  }

  lemma MemberRows(db: Db, a: ActionId)
    ensures MembersOf(db, a) <= db.notes.Keys
  {
  }

  method RestoreNotes(session: Session, a: ActionId, ghost version: int, ghost selected: Option<Selected>, now: Time)
    requires StoreInv(session.db) && RestoreAction(session.db, a, version, selected, now).Success?
    modifies session`db
    ensures session.db == RestoreAction(old(session.db), a, version, selected, now).value
  {
    hide StoreInv, Reconcile, MembersOf, RestoredNotes, KeepOffsets;
    ghost var db := session.db;
    var s := session.db.actions[a].series;
    RestoreEach(session, a, now);
    var series := session.db.series[s];
    series := series.(version := series.version + 1);
    session.db := session.db.(series := session.db.series[s := series],
      outbox := session.db.outbox + [Event(SeriesUpdated, SeriesEntity(s), series.version)]);
  }

  // for note in notes
  method RestoreEach(session: Session, a: ActionId, now: Time)
    requires StoreInv(session.db)
    modifies session`db
    ensures var db, ids := old(session.db), MembersOf(old(session.db), a);
            && ids <= db.notes.Keys
            && session.db == Reconcile(db.(notes := RestoredNotes(db, ids)), KeepOffsets(db, ids), now)
  {
    hide StoreInv, Reconcile, MembersOf, Underway, RulesOwned, Numbered, Applied, RestoreBatch, RestoredNotes,
         KeepOffsets;
    ghost var db := session.db;
    var notes := Listing(MembersOf(session.db, a));
    ghost var ids := MembersOf(db, a);
    MemberRows(db, a);
    ghost var b := RestoreBatch(db, ids);
    ghost var done: set<NoteId> := {};
    RestoreBatchIs(db, ids, now);
    StoreNumbered(db);
    Begin(db, b, now);
    for i := 0 to |notes|
      invariant done == Elements(notes[..i])
      invariant Underway(db, session.db, b, done, now) && session.db.noteTags == db.noteTags
    {
      var n := notes[i];
      assert n in Elements(notes) && n !in done;
      assert notes[..i + 1] == notes[..i] + [n];
      RestoreOne(session, n, now, db, ids, done);
      done := done + {n};
    }
    assert notes[..|notes|] == notes;
    Finish(db, session.db, b, done, now);
  }

  method RestoreOne(session: Session, n: NoteId, now: Time, ghost db: Db, ghost ids: set<NoteId>,
                    ghost done: set<NoteId>)
    requires ids <= db.notes.Keys && n in ids && n !in done && RulesOwned(db) && Numbered(db)
    requires Underway(db, session.db, RestoreBatch(db, ids), done, now)
    modifies session`db
    ensures Underway(db, session.db, RestoreBatch(db, ids), done + {n}, now)
    ensures session.db.noteTags == old(session.db).noteTags
  {
    hide Reconcile, Underway, RulesOwned, Numbered, EnabledOffsets;
    ghost var b := RestoreBatch(db, ids);
    NotReached(db, session.db, b, done, n, now);
    var note := session.db.notes[n];
    note := note.(deletedAt := None, action := None, version := note.version + 1);
    var offsets := EnabledOffsets(session.db, n);
    WriteAndReconcile(session, n, note, offsets, false, now, db, b, done);
  }

  ghost function RestoreBatch(db: Db, ids: set<NoteId>): Batch {
    Batch(map n | n in ids && n in db.notes :: RestoreRow(db.notes[n]), KeepOffsets(db, ids * db.notes.Keys))
  }

  lemma RestoreBatchIs(db: Db, ids: set<NoteId>, now: Time)
    requires ids <= db.notes.Keys
    ensures var b := RestoreBatch(db, ids);
            && Proper(b) && b.rows.Keys == ids
            && Applied(db, b, now) == Reconcile(db.(notes := RestoredNotes(db, ids)), KeepOffsets(db, ids), now)
  {
    hide Reconcile, EnabledOffsets;
    assert ids * db.notes.Keys == ids;
    assert db.notes + RestoreBatch(db, ids).rows == RestoredNotes(db, ids);
  }
}

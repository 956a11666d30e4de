/** backend/app/api/router.py: creating, editing, deleting and restoring one note. */
module NoteHandlers {
  import opened Prelude
  import opened Storage
  import opened Reconciliation
  import opened Progress
  import opened Invariants
  import opened Lineage
  import opened Store
  import opened Api
  import opened Notes

  function WithTags(db: Db, id: NoteId, tags: Option<set<TagId>>): set<NoteTag> {
    if tags.None? then db.noteTags
    else (set t | t in db.noteTags && t.note != id) + (set t | t in tags.value :: NoteTag(id, t))
  }

  /** One row of `notes` and the edits the handlers make to it. */
  datatype Edit = Edit(row: Note, tags: Option<set<TagId>>, offsets: set<int>, moved: bool,
                       cancelled: Option<bool>, event: EventType)

  function Written(db: Db, id: NoteId, e: Edit): Db {
    db.(notes := db.notes[id := e.row], noteTags := WithTags(db, id, e.tags))
  }

  /** The write, the reconciliation, the exception bookkeeping and the event. */
  function Save(db: Db, id: NoteId, e: Edit, now: Time): Db {
    var db' := SetException(Reconcile(Written(db, id, e), OneNote(id, e.offsets, e.moved), now), id, e.cancelled);
    db'.(outbox := db'.outbox + [Event(e.event, NoteEntity(id), e.row.version)])
  }

  // ---------- the handlers ----------

  function CreateNote(db: Db, id: NoteId, f: NoteFields, now: Time): Result<Db, ApiError> {
    var title := Strip(f.title);
    if title == "" then Failure(ValidationError)
    else if !(f.tags <= db.tags.Keys) then Failure(InvalidTag)
    else
      var row := Note(title, f.body, f.startsAt, f.active, None, None, None, None, None, None, None, 1);
      Success(Save(db, id, Edit(row, Some(f.tags), f.offsets, false, None, NoteCreated), now))
  }

  function UpdateNote(db: Db, id: NoteId, version: int, seriesVersion: Option<int>, f: NoteFields, now: Time)
    : Result<Db, ApiError>
  {
    if !Visible(db, id) then Failure(NotFound)
    else
      var n := db.notes[id];
      var locked := LockSeries(db, n, seriesVersion);
      if locked.Failure? then locked
      else if n.version != version then Failure(VersionConflict)
      else if n.deletedAt.Some? then Failure(NoteInTrash)
      else
        var title := Strip(f.title);
        if title == "" then Failure(ValidationError)
        else if !(f.tags <= db.tags.Keys) then Failure(InvalidTag)
        else
          var row := n.(title := title, body := f.body, startsAt := f.startsAt, active := f.active,
                        version := n.version + 1);
          Success(Save(locked.value, id,
            Edit(row, Some(f.tags), f.offsets, n.startsAt != f.startsAt, None, NoteUpdated), now))
  }

  function DeleteNote(db: Db, id: NoteId, version: int, seriesVersion: Option<int>, now: Time): Result<Db, ApiError> {
    if !Visible(db, id) then Failure(NotFound)
    else
      var n := db.notes[id];
      var locked := LockSeries(db, n, seriesVersion);
      if locked.Failure? then locked
      else if n.version != version then Failure(VersionConflict)
      else if n.deletedAt.Some? then locked
      else
        Success(Save(locked.value, id,
          Edit(n.(deletedAt := Some(now), version := n.version + 1), None, EnabledOffsets(db, id), false,
               Some(true), NoteDeleted), now))
  }

  /** restore_note for a note outside any recurring-trash action. */
  function RestoreNote(db: Db, id: NoteId, version: int, seriesVersion: Option<int>, now: Time): Result<Db, ApiError> {
    if !Visible(db, id) then Failure(NotFound)
    else
      var n := db.notes[id];
      var locked := LockSeries(db, n, seriesVersion);
      if locked.Failure? then locked
      else if n.version != version then Failure(VersionConflict)
      else if n.deletedAt.None? then Failure(NoteNotInTrash)
      else if n.deletedAt.value <= now - RETENTION then Failure(RetentionExpired)
      else
        Success(Save(locked.value, id,
          Edit(n.(deletedAt := None, version := n.version + 1), None, EnabledOffsets(db, id), false,
               Some(false), NoteRestored), now))
  }

  // ---------- every handler keeps the store in order ----------

  /** An edit a handler may make: the note is new and ordinary, or it is visible, outside any
      trash action, and keeps its slot; a schedule change is declared. */
  predicate Editable(db: Db, id: NoteId, e: Edit) {
    && e.row.action.None? && e.row.purgedAt.None?
    && (if id in db.notes
        then Visible(db, id) && db.notes[id].action.None? && SameSlotRow(db.notes[id], e.row)
          && (e.moved || e.row.startsAt == db.notes[id].startsAt)
        else e.row.seriesId.None? && e.row.recurrenceKey.None?)
  }

  lemma SaveCovers(db: Db, id: NoteId, e: Edit)
    requires Editable(db, id, e)
    ensures PlanCovers(db, db.notes[id := e.row], OneNote(id, e.offsets, e.moved))
  {
  }

  lemma SlotIsTaken(db: Db, m: NoteId, n: NoteId, k: SlotKey)
    requires SlotInv(db) && m in db.notes && n in db.notes && m != n && InSlot(db.notes[m], k)
    ensures !InSlot(db.notes[n], k)
  {
  }

  lemma SaveFrozenNotes(db: Db, id: NoteId, e: Edit, now: Time)
    requires Editable(db, id, e) && SlotInv(db)
    ensures NotesFrozen(db, Save(db, id, e, now))
  {
    hide Reconcile, SlotInv, OverridesOf;
    var p := OneNote(id, e.offsets, e.moved);
    ReconcileLocal(Written(db, id, e), p, now);
    var c := Save(db, id, e, now);
    forall n | n in c.notes && (Purged(db, n) || Purged(c, n)) ensures SameNote(db, c, n) {
    }
    forall dk | dk in c.deliveries && Purged(c, dk.rule.note)
      ensures dk in db.deliveries && c.deliveries[dk] == db.deliveries[dk]
    {
      assert dk.rule.note != id;
    }
    forall k, n | k in c.exceptions && Purged(c, n) && InSlot(c.notes[n], k)
      ensures k in db.exceptions && c.exceptions[k] == db.exceptions[k]
    {
      if id in db.notes && id != n && InSlot(db.notes[id], k) { SlotIsTaken(db, id, n, k); }
    }
  }

  lemma SaveFrozenSeries(db: Db, id: NoteId, e: Edit, now: Time)
    requires Editable(db, id, e) && RedactionInv(db)
    ensures SeriesFrozen(db, Save(db, id, e, now))
  {
    hide Reconcile, OverridesOf, NoteRedaction;
    var c := Save(db, id, e, now);
    assert id in db.notes && e.row.seriesId.Some? ==> !SeriesPurged(db, e.row.seriesId.value);
  }

  lemma SaveSlots(db: Db, id: NoteId, e: Edit, now: Time)
    requires Editable(db, id, e) && SlotInv(db)
    ensures SlotInv(Save(db, id, e, now))
  {
    var c := Save(db, id, e, now);
    forall n | n in c.notes ensures Slotted(c, n) {
      if n in db.notes { assert Slotted(db, n); }
    }
    forall m, n | m in c.notes && n in c.notes && SameSlot(c.notes[m], c.notes[n]) ensures m == n {
      if m in db.notes && n in db.notes { assert SameSlot(db.notes[m], db.notes[n]); }
    }
  }

  lemma SaveKeeps(db: Db, id: NoteId, e: Edit, now: Time)
    requires StoreInv(db) && Editable(db, id, e)
    ensures Keeps(db, Save(db, id, e, now))
  {
    hide ReminderInv, SlotInv, LineageInv, NoteRedaction, SeriesRedaction, NotesFrozen, SeriesFrozen, PlanCovers,
         Reconcile, TrashInv, Advances;
    var notes, p := db.notes[id := e.row], OneNote(id, e.offsets, e.moved);
    var c := Save(db, id, e, now);
    SaveCovers(db, id, e);
    SaveFrozenNotes(db, id, e, now);
    SaveFrozenSeries(db, id, e, now);
    SaveSlots(db, id, e, now);
    var b := Reconcile(db.(notes := notes), p, now);
    SameInputs(db.(notes := notes), Written(db, id, e), p, now);
    assert Surroundings(db, b, c);
    EditKeeps(db, notes, p, now, c);
  }

  lemma LockKeeps(db: Db, id: NoteId, expected: Option<int>)
    requires StoreInv(db) && Visible(db, id) && LockSeries(db, db.notes[id], expected).Success?
    ensures var locked := LockSeries(db, db.notes[id], expected).value;
            && Keeps(db, locked) && locked == db.(series := locked.series)
  {
    var n := db.notes[id];
    if n.seriesId.None? || n.seriesId.value !in db.series { AdvancesReflexive(db); }
    else { BumpKeeps(db, id, n.seriesId.value); }
  }

  lemma EditableAfterLock(db: Db, locked: Db, id: NoteId, e: Edit)
    requires Editable(db, id, e) && locked == db.(series := locked.series)
    ensures Editable(locked, id, e)
  {
  }

  // ---------- the handlers, step by step ----------

  lemma CreateKeeps(db: Db, id: NoteId, f: NoteFields, now: Time)
    requires StoreInv(db) && id !in db.notes && CreateNote(db, id, f, now).Success?
    ensures Keeps(db, CreateNote(db, id, f, now).value)
  {
    var row := Note(Strip(f.title), f.body, f.startsAt, f.active, None, None, None, None, None, None, None, 1);
    SaveKeeps(db, id, Edit(row, Some(f.tags), f.offsets, false, None, NoteCreated), now);
  }

  lemma SaveLocked(db: Db, id: NoteId, expected: Option<int>, e: Edit, now: Time)
    requires StoreInv(db) && Visible(db, id) && Editable(db, id, e)
    requires LockSeries(db, db.notes[id], expected).Success?
    ensures Keeps(db, Save(LockSeries(db, db.notes[id], expected).value, id, e, now))
  {
    hide StoreInv, Save, Advances, Editable;
    var locked := LockSeries(db, db.notes[id], expected).value;
    LockKeeps(db, id, expected);
    EditableAfterLock(db, locked, id, e);
    SaveKeeps(locked, id, e, now);
    AdvancesTransitive(db, locked, Save(locked, id, e, now));
  }

  /** A note in the trash outside any action: what delete leaves and restore accepts. */
  lemma NotInAction(db: Db, id: NoteId)
    requires StoreInv(db) && id in db.notes && db.notes[id].deletedAt.None?
    ensures db.notes[id].action.None?
  {
  }

  lemma UpdateKeeps(db: Db, id: NoteId, version: int, seriesVersion: Option<int>, f: NoteFields, now: Time)
    requires StoreInv(db) && UpdateNote(db, id, version, seriesVersion, f, now).Success?
    ensures Keeps(db, UpdateNote(db, id, version, seriesVersion, f, now).value)
  {
    hide StoreInv, Keeps, Save, Strip;
    var n := db.notes[id];
    NotInAction(db, id);
    var row := n.(title := Strip(f.title), body := f.body, startsAt := f.startsAt, active := f.active,
                  version := n.version + 1);
    SaveLocked(db, id, seriesVersion,
      Edit(row, Some(f.tags), f.offsets, n.startsAt != f.startsAt, None, NoteUpdated), now);
  }

  lemma DeleteKeeps(db: Db, id: NoteId, version: int, seriesVersion: Option<int>, now: Time)
    requires StoreInv(db) && DeleteNote(db, id, version, seriesVersion, now).Success?
    ensures Keeps(db, DeleteNote(db, id, version, seriesVersion, now).value)
  {
    hide StoreInv, Keeps, Save, Strip;
    var n := db.notes[id];
    if n.deletedAt.Some? { LockKeeps(db, id, seriesVersion); }
    else {
      NotInAction(db, id);
      SaveLocked(db, id, seriesVersion,
        Edit(n.(deletedAt := Some(now), version := n.version + 1), None, EnabledOffsets(db, id), false,
             Some(true), NoteDeleted), now);
    }
  }

  lemma RestoreKeeps(db: Db, id: NoteId, version: int, seriesVersion: Option<int>, now: Time)
    requires StoreInv(db) && RestoreNote(db, id, version, seriesVersion, now).Success?
    requires db.notes[id].action.None?
    ensures Keeps(db, RestoreNote(db, id, version, seriesVersion, now).value)
  {
    hide StoreInv, Keeps, Save, Strip;
    var n := db.notes[id];
    SaveLocked(db, id, seriesVersion,
      Edit(n.(deletedAt := None, version := n.version + 1), None, EnabledOffsets(db, id), false,
           Some(false), NoteRestored), now);
  }

  // ---------- the transactions, statement by statement ----------

  /** The transaction committed what the specification says, or rolled back with its error. */
  ghost predicate Committed(before: Db, after: Db, spec: Result<Db, ApiError>, r: Result<(), ApiError>) {
    match spec
    case Success(db) => after == db && r.Success?
    case Failure(e) => after == before && r == Failure(e)
  }

  method ReplaceTags(session: Session, id: NoteId, tags: set<TagId>)
    modifies session`db
    ensures session.db == old(session.db).(noteTags := WithTags(old(session.db), id, Some(tags)))
  {
    var existing := TagsOf(session.db, id);
    var kept := session.db.noteTags - (set t | t in existing - tags :: NoteTag(id, t));
    session.db := session.db.(noteTags := kept + (set t | t in tags - existing :: NoteTag(id, t)));
    TagsReplaced(old(session.db), id, tags);
  }

  lemma TagsReplaced(db: Db, id: NoteId, tags: set<TagId>)
    ensures var existing := TagsOf(db, id);
            (db.noteTags - (set t | t in existing - tags :: NoteTag(id, t)))
              + (set t | t in tags - existing :: NoteTag(id, t)) == WithTags(db, id, Some(tags))
  {
  }

  /** The statements every handler ends with. */
  method SaveTx(session: Session, id: NoteId, e: Edit, now: Time)
    requires Editable(session.db, id, e) && RulesOwned(session.db) && Numbered(session.db)
    modifies session`db
    ensures session.db == Save(old(session.db), id, e, now)
  {
    hide Reconcile;
    var before := session.db;
    session.db := session.db.(notes := session.db.notes[id := e.row]);
    if e.tags.Some? { ReplaceTags(session, id, e.tags.value); }
    StillNumbered(before, session.db);
    assert session.db == Written(before, id, e);
    ReconcileReminders(session, id, e.offsets, e.moved, now);
    session.db := SetException(session.db, id, e.cancelled);
    session.db := session.db.(outbox := session.db.outbox + [Event(e.event, NoteEntity(id), e.row.version)]);
  }

  // lines 272-293
  method CreateNoteTx(session: Session, f: NoteFields, now: Time) returns (r: Result<(), ApiError>, id: NoteId)
    requires StoreInv(session.db) && session.nextUuid !in session.db.notes
    modifies session
    ensures id == old(session.nextUuid)
    ensures Committed(old(session.db), session.db, CreateNote(old(session.db), id, f, now), r)
  {
    hide Save, TrashInv, RedactionInv, SlotInv, LineageInv;
    id := session.Uuid();
    var title := Strip(f.title);
    if title == "" { return Failure(ValidationError), id; }
    if !(f.tags <= session.db.tags.Keys) { return Failure(InvalidTag), id; }
    var note := Note(title, f.body, f.startsAt, f.active, None, None, None, None, None, None, None, 1);
    SaveTx(session, id, Edit(note, Some(f.tags), f.offsets, false, None, NoteCreated), now);
    r := Success(());
  }

  method LockedNote(session: Session, id: NoteId, seriesVersion: Option<int>)
    returns (r: Result<Note, ApiError>)
    modifies session`db
    ensures r.Success? <==>
              Visible(old(session.db), id)
              && LockSeries(old(session.db), old(session.db).notes[id], seriesVersion).Success?
    ensures r.Success? ==> (id in old(session.db).notes && r.value == old(session.db).notes[id])
    ensures r.Success? ==> session.db == LockSeries(old(session.db), r.value, seriesVersion).value
    ensures r.Failure? ==> session.db == old(session.db)
    ensures r.Failure? ==> r.error == if Visible(old(session.db), id)
              then LockSeries(old(session.db), old(session.db).notes[id], seriesVersion).error else NotFound
  {
    if id !in session.db.notes || session.db.notes[id].purgedAt.Some? || session.db.notes[id].supersededAt.Some? {
      return Failure(NotFound);
    }
    var note := session.db.notes[id];
    if note.seriesId.Some? && note.seriesId.value in session.db.series {
      if seriesVersion.None? { return Failure(ValidationError); }
      var series := session.db.series[note.seriesId.value];
      if series.version != seriesVersion.value { return Failure(VersionConflict); }
      session.db := session.db.(series := session.db.series[note.seriesId.value :=
                                  series.(version := series.version + 1)]);
    }
    r := Success(note);
  }

  // lines 310-346
  method UpdateNoteTx(session: Session, id: NoteId, version: int, seriesVersion: Option<int>, f: NoteFields, now: Time)
    returns (r: Result<(), ApiError>)
    requires StoreInv(session.db)
    modifies session`db
    ensures Committed(old(session.db), session.db, UpdateNote(old(session.db), id, version, seriesVersion, f, now), r)
  {
    hide Save, StoreInv, Strip;
    var before := session.db;
    var found := LockedNote(session, id, seriesVersion);
    if found.Failure? { return Failure(found.error); }
    var note := found.value;
    if note.version != version { session.db := before; return Failure(VersionConflict); }
    if note.deletedAt.Some? { session.db := before; return Failure(NoteInTrash); }
    var title := Strip(f.title);
    if title == "" { session.db := before; return Failure(ValidationError); }
    if !(f.tags <= before.tags.Keys) { session.db := before; return Failure(InvalidTag); }
    var scheduleChanged := note.startsAt != f.startsAt;
    note := note.(title := title, body := f.body, startsAt := f.startsAt, active := f.active,
                  version := note.version + 1);
    var e := Edit(note, Some(f.tags), f.offsets, scheduleChanged, None, NoteUpdated);
    NotInAction(before, id);
    ReadyToSave(before, id, seriesVersion, e);
    SaveTx(session, id, e, now);
    r := Success(());
  }

  lemma ReadyToSave(db: Db, id: NoteId, expected: Option<int>, e: Edit)
    requires StoreInv(db) && Editable(db, id, e) && Visible(db, id)
    requires LockSeries(db, db.notes[id], expected).Success?
    ensures var locked := LockSeries(db, db.notes[id], expected).value;
            Editable(locked, id, e) && RulesOwned(locked) && Numbered(locked)
  {
    hide StoreInv, Editable, Advances;
    LockKeeps(db, id, expected);
    EditableAfterLock(db, LockSeries(db, db.notes[id], expected).value, id, e);
    StoreNumbered(LockSeries(db, db.notes[id], expected).value);
  }

  // lines 350-367
  method DeleteNoteTx(session: Session, id: NoteId, version: int, seriesVersion: Option<int>, now: Time)
    returns (r: Result<(), ApiError>)
    requires StoreInv(session.db)
    modifies session`db
    ensures Committed(old(session.db), session.db, DeleteNote(old(session.db), id, version, seriesVersion, now), r)
  {
    hide Save, StoreInv;
    var before := session.db;
    var found := LockedNote(session, id, seriesVersion);
    if found.Failure? { return Failure(found.error); }
    var note := found.value;
    if note.version != version { session.db := before; return Failure(VersionConflict); }
    if note.deletedAt.None? {
      var offsets := EnabledOffsets(session.db, id);
      note := note.(deletedAt := Some(now), version := note.version + 1);
      var e := Edit(note, None, offsets, false, Some(true), NoteDeleted);
      NotInAction(before, id);
      ReadyToSave(before, id, seriesVersion, e);
      SaveTx(session, id, e, now);
    }
    r := Success(());
  }

  // lines 399-422, the branch for a note outside any trash action
  method RestoreNoteTx(session: Session, id: NoteId, version: int, seriesVersion: Option<int>, now: Time)
    returns (r: Result<(), ApiError>)
    requires StoreInv(session.db) && (id in session.db.notes ==> session.db.notes[id].action.None?)
    modifies session`db
    ensures Committed(old(session.db), session.db, RestoreNote(old(session.db), id, version, seriesVersion, now), r)
  {
    hide Save, StoreInv;
    var before := session.db;
    var found := LockedNote(session, id, seriesVersion);
    if found.Failure? { return Failure(found.error); }
    var note := found.value;
    if note.version != version { session.db := before; return Failure(VersionConflict); }
    if note.deletedAt.None? { session.db := before; return Failure(NoteNotInTrash); }
    if note.deletedAt.value <= now - RETENTION { session.db := before; return Failure(RetentionExpired); }
    var offsets := EnabledOffsets(session.db, id);
    note := note.(deletedAt := None, version := note.version + 1);
    var e := Edit(note, None, offsets, false, Some(false), NoteRestored);
    ReadyToSave(before, id, seriesVersion, e);
    SaveTx(session, id, e, now);
    r := Success(());
  }
}

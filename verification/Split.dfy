/** backend/app/api/router.py, split_series: replacing a series from one occurrence on. */
module Split {
  import opened Prelude
  import opened Storage
  import opened Calendar
  import opened Reconciliation
  import opened Progress
  import opened Invariants
  import opened Lineage
  import opened Store
  import opened Api
  import opened Batches
  import opened SeriesCreation

  datatype SplitRequest = SplitRequest(key: Time, seriesVersion: int, occurrenceVersion: int, fields: SeriesFields)

  /** An accepted split: series `s` from `key` on becomes the series `successor`, whose
      occurrences start at `instants`. */
  datatype Cut = Cut(s: SeriesId, successor: SeriesId, key: Time, fields: SeriesFields, instants: set<Time>, now: Time)

  // ---------- what the handler reads ----------

  function Affected(db: Db, s: SeriesId, key: Time): set<NoteId> {
    set n | n in db.notes && db.notes[n].seriesId == Some(s) && db.notes[n].recurrenceKey.Some?
            && db.notes[n].recurrenceKey.value >= key && db.notes[n].supersededAt.None?
  }

  function AtKey(db: Db, s: SeriesId, key: Time): set<NoteId> {
    set n | n in Affected(db, s, key) && db.notes[n].recurrenceKey == Some(key) && db.notes[n].purgedAt.None?
  }

  predicate SameLineage(db: Db, n: Note, lineage: SeriesId) {
    n.seriesId.Some? && n.seriesId.value in db.series && db.series[n.seriesId.value].lineage == lineage
  }

  // The collision query: it looks below the selected key only.
  predicate Collides(db: Db, n: Note, lineage: SeriesId, key: Time, instants: set<Time>) {
    && SameLineage(db, n, lineage) && n.recurrenceKey.Some? && n.recurrenceKey.value < key && n.supersededAt.None?
    && (n.recurrenceKey.value in instants || n.startsAt in instants)
  }

  /** The refusals, in the order the handler finds them. */
  function SplitError(db: Db, e: Settings, s: SeriesId, r: SplitRequest, now: Time): Option<ApiError>
    requires WellTyped(r.fields)
  {
    if s !in db.series || db.series[s].purgedAt.Some? then Some(NotFound)
    else if db.series[s].splitBoundary.Some? || (exists x :: x in db.series && db.series[x].predecessor == Some(s))
    then Some(SeriesNotLeaf)
    else if db.series[s].version != r.seriesVersion then Some(VersionConflict)
    else if AtKey(db, s, r.key) == {} then Some(OccurrenceNotFound)
    else if exists n :: n in AtKey(db, s, r.key) && db.notes[n].version != r.occurrenceVersion
    then Some(VersionConflict)
    else if exists n :: n in Affected(db, s, r.key) && (db.notes[n].action.Some? || db.notes[n].seriesTrashedAt.Some?)
    then Some(TrashActionOverlap)
    else if exists n :: n in Affected(db, s, r.key) && db.notes[n].startsAt <= now then Some(HistoricalReplacement)
    else if Generated(e, r.fields).None? then Some(InvalidRecurrence)
    else
      var instants := Elements(Generated(e, r.fields).value);
      if exists t :: t in instants && t <= now then Some(HistoricalReplacement)
      else if exists n :: n in db.notes && Collides(db, db.notes[n], db.series[s].lineage, r.key, instants)
      then Some(RecurrenceCollision)
      else if !(r.fields.tags <= db.tags.Keys) then Some(InvalidTag)
      else if Strip(r.fields.title) == "" then Some(ValidationError)
      else if db.series[s].timezone !in e.zones then Some(InternalError)
      else None
  }

  // ---------- what it writes ----------

  function Kept(db: Db, c: Cut): set<NoteId> {
    set n | n in Affected(db, c.s, c.key) && db.notes[n].purgedAt.None? && db.notes[n].recurrenceKey.value in c.instants
  }

  function Superseded(db: Db, c: Cut): set<NoteId> {
    set n | n in Affected(db, c.s, c.key) && db.notes[n].purgedAt.None?
        && db.notes[n].recurrenceKey.value !in c.instants
  }

  /** The instants no unpurged occurrence of the old series has as its key. */
  function Vacant(db: Db, c: Cut): set<Time> {
    set t | t in c.instants && forall n | n in Kept(db, c) :: db.notes[n].recurrenceKey.value != t
  }

  function KeptRow(n: Note, c: Cut): Note
    requires n.recurrenceKey.Some?
  {
    n.(title := Strip(c.fields.title), body := c.fields.body, startsAt := n.recurrenceKey.value,
       active := c.fields.active,
       seriesId := Some(c.successor), deletedAt := None, seriesTrashedAt := None, supersededAt := None,
       version := n.version + 1)
  }

  function SupersededRow(n: Note, now: Time): Note {
    n.(deletedAt := Some(now), supersededAt := Some(now), version := n.version + 1)
  }

  function CutRow(db: Db, c: Cut, slots: map<NoteId, Time>, n: NoteId): Note
    requires n in Kept(db, c) + Superseded(db, c) + slots.Keys
  {
    if n in Kept(db, c) then KeptRow(db.notes[n], c)
    else if n in Superseded(db, c) then SupersededRow(db.notes[n], c.now)
    else OccurrenceRow(c.fields, c.successor, slots[n])
  }

  function CutBatch(db: Db, c: Cut, slots: map<NoteId, Time>): Batch {
    Batch(map n | n in Kept(db, c) + Superseded(db, c) + slots.Keys :: CutRow(db, c, slots, n),
          Plan(map n | n in Kept(db, c) + Superseded(db, c) + slots.Keys ::
                 if n in Superseded(db, c) then EnabledOffsets(db, n) else c.fields.offsets,
               set n | n in Kept(db, c) && db.notes[n].startsAt != db.notes[n].recurrenceKey.value))
  }

  predicate TombstoneKey(db: Db, c: Cut, key: Time) {
    exists n :: n in Affected(db, c.s, c.key) && db.notes[n].purgedAt.Some? && db.notes[n].recurrenceKey == Some(key)
  }

  predicate ExceptionStays(db: Db, c: Cut, k: SlotKey) {
    k.series == c.s && k.key >= c.key ==> TombstoneKey(db, c, k.key)
  }

  function ExceptionsLeft(db: Db, c: Cut): map<SlotKey, OccurrenceException> {
    map k | k in db.exceptions && ExceptionStays(db, c, k) :: db.exceptions[k]
  }

  function TagsAfter(db: Db, c: Cut, slots: map<NoteId, Time>): set<NoteTag> {
    (set t | t in db.noteTags && t.note !in Kept(db, c)) + TagsFor(Kept(db, c) + slots.Keys, c.fields.tags)
  }

  // The last local date before the selected occurrence, as a day number.
  function LastDay(zone: Zone, key: Time): int {
    LocalOf(zone, key) / DAY - 1
  }

  function ClosedRow(e: Settings, old_: Series, key: Time): Series
    requires old_.timezone in e.zones
  {
    old_.(endDate := LastDay(e.zones[old_.timezone], key), splitBoundary := Some(key), version := old_.version + 1)
  }

  /** The rows written before the occurrences: the closed predecessor and its successor. */
  function WithSuccessor(db: Db, e: Settings, c: Cut): Db
    requires WellTyped(c.fields) && c.s in db.series && db.series[c.s].timezone in e.zones
  {
    var old_ := db.series[c.s];
    db.(series := db.series[c.s := ClosedRow(e, old_, c.key)]
                           [c.successor := SeriesRow(c.fields, old_.lineage, Some(c.s))],
        seriesTags := db.seriesTags + SeriesTagsFor(c.successor, c.fields.tags),
        templates := db.templates + TemplatesFor(c.successor, c.fields.offsets))
  }

  function AfterSplit(db: Db, e: Settings, c: Cut, slots: map<NoteId, Time>): Db
    requires WellTyped(c.fields) && c.s in db.series && db.series[c.s].timezone in e.zones
  {
    Applied(WithSuccessor(db, e, c), CutBatch(db, c, slots), c.now).(
      noteTags := TagsAfter(db, c, slots),
      exceptions := ExceptionsLeft(db, c),
      outbox := db.outbox + [Event(SeriesUpdated, SeriesEntity(c.successor), 1)])
  }

  /** What an accepted split rests on. */
  ghost predicate Acceptable(db: Db, e: Settings, c: Cut, slots: map<NoteId, Time>) {
    && WellTyped(c.fields) && c.s in db.series && db.series[c.s].purgedAt.None? && db.series[c.s].timezone in e.zones
    && db.series[c.s].splitBoundary.None? && (forall x :: !Follows(db.series, x, c.s))
    && c.successor !in db.series && Fills(db, slots, Vacant(db, c)) && AtKey(db, c.s, c.key) != {}
    && (forall n :: n in Affected(db, c.s, c.key) ==> db.notes[n].action.None?)
    && (forall t :: t in c.instants ==> t > c.now)
    && (forall n :: n in db.notes ==> !Collides(db, db.notes[n], db.series[c.s].lineage, c.key, c.instants))
  }

  // ---------- a split keeps the store in order ----------

  lemma CutRows(db: Db, c: Cut, slots: map<NoteId, Time>)
    ensures var b := CutBatch(db, c, slots);
            && Proper(b) && b.rows.Keys == Kept(db, c) + Superseded(db, c) + slots.Keys
            && (forall n :: n in b.rows ==> b.rows[n] == CutRow(db, c, slots, n))
            && (forall n :: n in b.rows ==>
                  b.plan.wanted[n] == if n in Superseded(db, c) then EnabledOffsets(db, n) else c.fields.offsets)
            && (forall n :: n in b.plan.moved <==>
                  n in Kept(db, c) && db.notes[n].startsAt != db.notes[n].recurrenceKey.value)
    ensures Kept(db, c) <= db.notes.Keys && Superseded(db, c) <= db.notes.Keys && Kept(db, c) !! Superseded(db, c)
  {
  }

  lemma CutCovers(db: Db, c: Cut, slots: map<NoteId, Time>)
    requires slots.Keys !! db.notes.Keys
    ensures var b := CutBatch(db, c, slots); PlanCovers(db, db.notes + b.rows, b.plan)
  {
  }

  lemma CutLeavesActions(db: Db, e: Settings, c: Cut, slots: map<NoteId, Time>)
    requires Acceptable(db, e, c, slots)
    ensures var notes := db.notes + CutBatch(db, c, slots).rows;
            forall n :: n in notes ==> LeavesActions(Row(db, n), notes[n])
  {
    hide CutBatch, EnabledOffsets, Strip;
    CutRows(db, c, slots);
  }

  lemma CutUnpurged(db: Db, e: Settings, c: Cut, slots: map<NoteId, Time>)
    requires Acceptable(db, e, c, slots)
    ensures var b := CutBatch(db, c, slots);
            forall n :: n in b.rows ==> !Purged(db, n) && b.rows[n].purgedAt.None?
  {
  }

  lemma SplitFrozenNotes(db: Db, e: Settings, c: Cut, slots: map<NoteId, Time>)
    requires Acceptable(db, e, c, slots)
    ensures NotesFrozen(db, AfterSplit(db, e, c, slots))
  {
    hide Reconcile, CutBatch, TagsFor, SeriesTagsFor, TemplatesFor, NotesFrozen, Affected, Strip, ExceptionStays;
    CutRows(db, c, slots);
    CutUnpurged(db, e, c, slots);
    var b, after := CutBatch(db, c, slots), AfterSplit(db, e, c, slots);
    SameInputs(db.(notes := db.notes + b.rows), WithSuccessor(db, e, c).(notes := db.notes + b.rows), b.plan, c.now);
    assert Confined(db, after, b.rows.Keys);
    BatchIsFrozen(db, after, b, c.now);
  }

  lemma SplitFrozenSeries(db: Db, e: Settings, c: Cut, slots: map<NoteId, Time>)
    requires Acceptable(db, e, c, slots)
    ensures SeriesFrozen(db, AfterSplit(db, e, c, slots))
  {
    hide Reconcile, CutBatch, CutRow, TagsFor, SeriesTagsFor, TemplatesFor, Affected, Strip, ExceptionStays, Collides,
         Fills, AtKey, ClosedRow;
    CutSeries(db, c, slots);
    var after := AfterSplit(db, e, c, slots);
    ClosedRowIs(e, db.series[c.s], c.key);
    assert after.series[c.successor].purgedAt.None? && after.series[c.s].purgedAt.None?;
    forall n | n in after.notes && after.notes[n].seriesId.Some? && SeriesPurged(after, after.notes[n].seriesId.value)
      ensures n in db.notes && db.notes[n].seriesId == after.notes[n].seriesId
    {
      assert after.notes[n].seriesId != Some(c.successor);
    }
  }

  lemma ClosedRowIs(e: Settings, old_: Series, key: Time)
    requires old_.timezone in e.zones && old_.splitBoundary.None?
    ensures var row := ClosedRow(e, old_, key); SeriesRowAdvances(old_, row.(purgedAt := None)) || old_.purgedAt.Some?
    ensures ClosedRow(e, old_, key).purgedAt == old_.purgedAt
  {
  }

  lemma CutSeries(db: Db, c: Cut, slots: map<NoteId, Time>)
    ensures var b := CutBatch(db, c, slots);
            forall n :: n in b.rows ==>
              b.rows[n].seriesId == Some(c.successor) || (n in db.notes && b.rows[n].seriesId == db.notes[n].seriesId)
  {
  }

  lemma SplitLineage(db: Db, e: Settings, c: Cut, slots: map<NoteId, Time>)
    requires Acceptable(db, e, c, slots) && LineageInv(db.series)
    ensures LineageInv(AfterSplit(db, e, c, slots).series)
  {
    hide Reconcile, CutBatch, LineageInv, Strip, Collides, TagsAfter, ExceptionsLeft, Fills, AtKey, Affected;
    var old_ := db.series[c.s];
    SplitKeepsLineage(db.series, c.s, ClosedRow(e, old_, c.key), c.successor,
                      SeriesRow(c.fields, old_.lineage, Some(c.s)));
  }

  lemma SplitSlots(db: Db, e: Settings, c: Cut, slots: map<NoteId, Time>)
    requires Acceptable(db, e, c, slots) && SlotInv(db)
    ensures SlotInv(AfterSplit(db, e, c, slots))
  {
    hide Reconcile, CutBatch, Strip, Collides, TagsAfter, ExceptionsLeft, Fills, AtKey, ClosedRow, SeriesRow;
    CutRows(db, c, slots);
    var after := AfterSplit(db, e, c, slots);
    forall n | n in after.notes ensures Slotted(after, n) {
      if n in db.notes { assert Slotted(db, n); }
    }
    forall m, n | m in after.notes && n in after.notes && SameSlot(after.notes[m], after.notes[n]) ensures m == n {
      SlotStaysFree(db, e, c, slots, m, n);
    }
  }

  lemma SlotStaysFree(db: Db, e: Settings, c: Cut, slots: map<NoteId, Time>, m: NoteId, n: NoteId)
    requires Acceptable(db, e, c, slots) && SlotInv(db)
    requires var notes := db.notes + CutBatch(db, c, slots).rows;
             m in notes && n in notes && SameSlot(notes[m], notes[n])
    ensures m == n
  {
    hide CutBatch, Strip, Collides, EnabledOffsets;
    CutRows(db, c, slots);
    if m in db.notes { assert Slotted(db, m); }
    if n in db.notes { assert Slotted(db, n); }
    if m in db.notes && n in db.notes {
      assert SameSlot(db.notes[m], db.notes[n]) ==> m == n;
    }
  }

  /** The split of any series at any occurrence keeps the whole invariant. */
  lemma SplitKeeps(db: Db, e: Settings, c: Cut, slots: map<NoteId, Time>)
    requires StoreInv(db) && Acceptable(db, e, c, slots)
    ensures Keeps(db, AfterSplit(db, e, c, slots))
  {
    hide ReminderInv, SlotInv, LineageInv, RedactionInv, NotesFrozen, SeriesFrozen, Reconcile, Advances, TrashInv,
         Strip, PlanCovers, TagsFor, SeriesTagsFor, TemplatesFor, CutBatch, Affected, ExceptionsLeft, Collides,
         TagsAfter;
    var b := CutBatch(db, c, slots);
    CutRows(db, c, slots);
    CutCovers(db, c, slots);
    CutLeavesActions(db, e, c, slots);
    SplitFrozenNotes(db, e, c, slots);
    SplitFrozenSeries(db, e, c, slots);
    SplitSlots(db, e, c, slots);
    SplitLineage(db, e, c, slots);
    SameInputs(db.(notes := db.notes + b.rows), WithSuccessor(db, e, c).(notes := db.notes + b.rows), b.plan, c.now);
    EditKeeps(db, db.notes + b.rows, b.plan, c.now, AfterSplit(db, e, c, slots));
  }

  // ---------- the transaction, statement by statement ----------

  /** What the handler answers, and the store it commits. */
  ghost predicate SplitOutcome(db: Db, e: Settings, s: SeriesId, r: SplitRequest, now: Time, successor: SeriesId,
                               slots: map<NoteId, Time>, answer: Result<(), ApiError>, after: Db)
    requires WellTyped(r.fields)
  {
    match SplitError(db, e, s, r, now)
    case Some(error) => answer == Failure(error) && after == db
    case None =>
      var c := Cut(s, successor, r.key, r.fields, Elements(Generated(e, r.fields).value), now);
      answer.Success? && Acceptable(db, e, c, slots) && after == AfterSplit(db, e, c, slots)
  }

  // lines 826-1071
  method SplitSeriesTx(session: Session, e: Settings, s: SeriesId, r: SplitRequest, now: Time)
    returns (answer: Result<(), ApiError>, ghost successor: SeriesId, ghost slots: map<NoteId, Time>)
    requires StoreInv(session.db) && FreshFrom(session.db, session.nextUuid)
    requires WellTyped(r.fields)
    modifies session
    ensures SplitOutcome(old(session.db), e, s, r, now, successor, slots, answer, session.db)
  {
    hide StoreInv, Generated, Strip, Acceptable, AfterSplit, Fills, Affected, FreshFrom, Collides;
    var db := session.db;
    successor, slots := 0, map[];
    if s !in db.series || db.series[s].purgedAt.Some? { answer := Failure(NotFound); return; }
    var old_ := db.series[s];
    if old_.splitBoundary.Some? || exists x :: x in db.series && db.series[x].predecessor == Some(s) {
      answer := Failure(SeriesNotLeaf); return;
    }
    if old_.version != r.seriesVersion { answer := Failure(VersionConflict); return; }
    AffectedIn(db, s, r.key);
    var selected := AtKey(db, s, r.key);
    if selected == {} { answer := Failure(OccurrenceNotFound); return; }
    if exists n :: n in selected && db.notes[n].version != r.occurrenceVersion {
      answer := Failure(VersionConflict); return;
    }
    var affected := Affected(db, s, r.key);
    if exists n :: n in affected && (db.notes[n].action.Some? || db.notes[n].seriesTrashedAt.Some?) {
      answer := Failure(TrashActionOverlap); return;
    }
    if exists n :: n in affected && db.notes[n].startsAt <= now { answer := Failure(HistoricalReplacement); return; }
    var generated := Generated(e, r.fields);
    if generated.None? { answer := Failure(InvalidRecurrence); return; }
    var instants := Elements(generated.value);
    if exists t :: t in instants && t <= now { answer := Failure(HistoricalReplacement); return; }
    if exists n :: n in db.notes && Collides(db, db.notes[n], old_.lineage, r.key, instants) {
      answer := Failure(RecurrenceCollision); return;
    }
    if !(r.fields.tags <= db.tags.Keys) { answer := Failure(InvalidTag); return; }
    var title := Strip(r.fields.title);
    if title == "" { answer := Failure(ValidationError); return; }
    if old_.timezone !in e.zones { answer := Failure(InternalError); return; }
    GeneratedAreDistinct(e, r.fields);
    ghost var first := session.nextUuid;
    var id := session.Uuid();
    successor := id;
    var c := Cut(s, id, r.key, r.fields, instants, now);
    IdsLeft(db, first);
    slots := ReplaceFrom(session, e, c, generated.value);
    Accept(db, e, s, r, now, c, slots);
    answer := Success(());
  }

  lemma AffectedIn(db: Db, s: SeriesId, key: Time)
    ensures Affected(db, s, key) <= db.notes.Keys && AtKey(db, s, key) <= Affected(db, s, key)
  {
  }

  lemma AffectedKeys(db: Db, s: SeriesId, key: Time)
    ensures forall n :: n in Affected(db, s, key) ==> n in db.notes && db.notes[n].recurrenceKey.Some?
  {
  }

  lemma IdsLeft(db: Db, first: int)
    requires FreshFrom(db, first)
    ensures FreshFrom(db, first + 1) && first !in db.series
  {
  }

  lemma Accept(db: Db, e: Settings, s: SeriesId, r: SplitRequest, now: Time, c: Cut, slots: map<NoteId, Time>)
    requires WellTyped(r.fields) && SplitError(db, e, s, r, now).None?
    requires c == Cut(s, c.successor, r.key, r.fields, Elements(Generated(e, r.fields).value), now)
    requires c.successor !in db.series && Fills(db, slots, Vacant(db, c))
    ensures Acceptable(db, e, c, slots)
  {
    hide Generated, Strip, Fills, Vacant, Collides;
  }

  function KeptAmong(db: Db, c: Cut, seen: set<Time>): set<NoteId> {
    set n | n in Kept(db, c) && db.notes[n].recurrenceKey.value in seen
  }

  /** Each vacant instant seen so far has got one new note, with an id out of [low, next). */
  ghost predicate SlotsSoFar(db: Db, c: Cut, slots: map<NoteId, Time>, seen: set<Time>, low: int, next: int) {
    && low <= next && (forall n :: n in slots ==> low <= n < next && slots[n] in Vacant(db, c) && slots[n] in seen)
    && (forall m, n :: m in slots && n in slots && slots[m] == slots[n] ==> m == n)
    && (forall t :: t in seen && t in Vacant(db, c) ==> Filled(slots, t))
  }

  ghost predicate TagsSoFar(db: Db, cur: Db, c: Cut, slots: map<NoteId, Time>, seen: set<Time>) {
    cur.noteTags == (set t | t in db.noteTags && t.note !in KeptAmong(db, c, seen))
                    + TagsFor(KeptAmong(db, c, seen) + slots.Keys, c.fields.tags)
  }

  /** The store once the occurrences at the instants in `seen` have been carried over or created. */
  ghost predicate CarriedOver(db: Db, base: Db, cur: Db, c: Cut, slots: map<NoteId, Time>, seen: set<Time>, low: int,
                              next: int) {
    && Underway(base, cur, CutBatch(db, c, slots), KeptAmong(db, c, seen) + slots.Keys, c.now)
    && SlotsSoFar(db, c, slots, seen, low, next)
    && TagsSoFar(db, cur, c, slots, seen)
  }

  lemma MoreSlots(db: Db, c: Cut, slots: map<NoteId, Time>, id: NoteId, at: Time, done: set<NoteId>)
    requires id !in done && id !in db.notes && id !in slots
    ensures Proper(CutBatch(db, c, slots)) && Proper(CutBatch(db, c, slots[id := at]))
    ensures Only(CutBatch(db, c, slots[id := at]), done) == Only(CutBatch(db, c, slots), done)
  {
    hide CutBatch, CutRow, EnabledOffsets, Affected;
    CutRows(db, c, slots);
    CutRows(db, c, slots[id := at]);
    var a, b := CutBatch(db, c, slots[id := at]), CutBatch(db, c, slots);
    forall n | n in done ensures n in a.rows <==> n in b.rows
                         ensures n in a.rows ==> a.rows[n] == b.rows[n] && a.plan.wanted[n] == b.plan.wanted[n] {
      if n in a.rows { SameCutRow(db, c, slots, id, at, n); }
    }
    assert forall n :: n in a.plan.moved <==> n in b.plan.moved;
    assert a.plan.moved == b.plan.moved;
    assert Only(a, done).rows == Only(b, done).rows;
    assert Only(a, done).plan.wanted == Only(b, done).plan.wanted;
  }

  lemma SameCutRow(db: Db, c: Cut, slots: map<NoteId, Time>, id: NoteId, at: Time, n: NoteId)
    requires n != id && n in Kept(db, c) + Superseded(db, c) + slots.Keys
    ensures CutRow(db, c, slots[id := at], n) == CutRow(db, c, slots, n)
  {
  }

  // A new occurrence: `if note is None`.
  method CreateOccurrence(session: Session, c: Cut, at: Time, ghost db: Db, ghost base: Db,
                          ghost slots: map<NoteId, Time>, ghost done: set<NoteId>)
    returns (id: NoteId)
    requires Underway(base, session.db, CutBatch(db, c, slots), done, c.now) && RulesOwned(base) && Numbered(base)
    requires base.notes == db.notes && base.rules == db.rules
    requires session.nextUuid !in done && session.nextUuid !in db.notes && session.nextUuid !in slots
    modifies session
    ensures id == old(session.nextUuid) && session.nextUuid == id + 1
    ensures Underway(base, session.db, CutBatch(db, c, slots[id := at]), done + {id}, c.now)
    ensures session.db.noteTags == old(session.db).noteTags + TagsFor({id}, c.fields.tags)
  {
    hide Reconcile, RulesOwned, Numbered, CutBatch, Applied, TagsFor, Affected, Strip, EnabledOffsets, Only;
    id := session.Uuid();
    MoreSlots(db, c, slots, id, at, done);
    CutRows(db, c, slots[id := at]);
    var note := Note(Strip(c.fields.title), c.fields.body, at, c.fields.active, None, None, None, None,
                     Some(c.successor), Some(at), None, 1);
    session.db := session.db.(noteTags := session.db.noteTags + TagsFor({id}, c.fields.tags));
    WriteAndReconcile(session, id, note, c.fields.offsets, false, c.now, base, CutBatch(db, c, slots[id := at]), done);
  }

  // An occurrence carried over: the else branch.
  method CarryOver(session: Session, c: Cut, at: Time, n: NoteId, ghost db: Db, ghost base: Db,
                   ghost slots: map<NoteId, Time>, ghost done: set<NoteId>)
    requires Underway(base, session.db, CutBatch(db, c, slots), done, c.now) && RulesOwned(base) && Numbered(base)
    requires base.notes == db.notes && base.rules == db.rules
    requires n in Kept(db, c) && n !in done && db.notes[n].recurrenceKey == Some(at)
    modifies session`db
    ensures Underway(base, session.db, CutBatch(db, c, slots), done + {n}, c.now)
    ensures session.db.noteTags == (set t | t in old(session.db).noteTags && t.note != n) + TagsFor({n}, c.fields.tags)
  {
    hide Reconcile, RulesOwned, Numbered, CutBatch, Applied, TagsFor, Affected, Strip, EnabledOffsets, Only, Underway;
    CutRows(db, c, slots);
    ghost var b := CutBatch(db, c, slots);
    NotReached(base, session.db, b, done, n, c.now);
    var note := session.db.notes[n];
    var scheduleChanged := note.startsAt != at;
    note := note.(seriesId := Some(c.successor), title := Strip(c.fields.title), body := c.fields.body, startsAt := at,
                  active := c.fields.active, version := note.version + 1);
    note := note.(deletedAt := None, seriesTrashedAt := None, supersededAt := None);
    var tags := (set t | t in session.db.noteTags && t.note != n) + TagsFor({n}, c.fields.tags);
    Retagged(base, session.db, b, done, c.now, tags);
    session.db := session.db.(noteTags := tags);
    WriteAndReconcile(session, n, note, c.fields.offsets, scheduleChanged, c.now, base, b, done);
  }

  lemma Retagged(base: Db, cur: Db, b: Batch, done: set<NoteId>, now: Time, tags: set<NoteTag>)
    requires Underway(base, cur, b, done, now)
    ensures Underway(base, cur.(noteTags := tags), b, done, now)
  {
  }

  // An affected note that was not kept.
  method Supersede(session: Session, c: Cut, n: NoteId, ghost db: Db, ghost base: Db, ghost slots: map<NoteId, Time>,
                   ghost done: set<NoteId>)
    requires Underway(base, session.db, CutBatch(db, c, slots), done, c.now) && RulesOwned(base) && Numbered(base)
    requires base.notes == db.notes && base.rules == db.rules
    requires n in Superseded(db, c) && n !in done
    modifies session`db
    ensures Underway(base, session.db, CutBatch(db, c, slots), done + {n}, c.now)
    ensures session.db.noteTags == old(session.db).noteTags
  {
    hide Reconcile, RulesOwned, Numbered, CutBatch, Applied, Affected, EnabledOffsets, Only, Underway;
    CutRows(db, c, slots);
    ghost var b := CutBatch(db, c, slots);
    NotReached(base, session.db, b, done, n, c.now);
    SameOffsets(base, db, n);
    var note := session.db.notes[n];
    note := note.(deletedAt := Some(c.now), supersededAt := Some(c.now), version := note.version + 1);
    var offsets := EnabledOffsets(session.db, n);
    WriteAndReconcile(session, n, note, offsets, false, c.now, base, b, done);
  }

  /** by_key: the unpurged affected notes, by recurrence key. */
  ghost predicate IsIndex(db: Db, c: Cut, byKey: map<Time, NoteId>) {
    && (forall t :: t in byKey ==> byKey[t] in Affected(db, c.s, c.key) && db.notes[byKey[t]].purgedAt.None?
                                   && db.notes[byKey[t]].recurrenceKey == Some(t))
    && (forall n :: n in Affected(db, c.s, c.key) && db.notes[n].purgedAt.None? ==>
          db.notes[n].recurrenceKey.value in byKey && byKey[db.notes[n].recurrenceKey.value] == n)
  }

  method IndexByKey(db: Db, c: Cut) returns (byKey: map<Time, NoteId>)
    requires SlotInv(db)
    ensures IsIndex(db, c, byKey)
  {
    var notes := set n | n in Affected(db, c.s, c.key) && db.notes[n].purgedAt.None?;
    forall m, n | m in notes && n in notes && db.notes[m].recurrenceKey == db.notes[n].recurrenceKey ensures m == n {
      assert SameSlot(db.notes[m], db.notes[n]);
    }
    byKey := map n | n in notes :: db.notes[n].recurrenceKey.value := n;
  }

  // for occurrence in generated
  method CarryEach(session: Session, c: Cut, generated: seq<Time>, byKey: map<Time, NoteId>, ghost db: Db,
                   ghost base: Db)
    returns (ghost slots: map<NoteId, Time>)
    requires session.db == base && base.notes == db.notes && base.rules == db.rules && base.noteTags == db.noteTags
    requires IsIndex(db, c, byKey) && RulesOwned(base) && Numbered(base) && FreshFrom(db, session.nextUuid)
    requires Distinct(generated) && Elements(generated) == c.instants
    modifies session
    ensures CarriedOver(db, base, session.db, c, slots, c.instants, old(session.nextUuid), session.nextUuid)
  {
    hide CutBatch, Underway, RulesOwned, Numbered, FreshFrom, CarriedOver, IsIndex;
    ghost var low := session.nextUuid;
    slots := map[];
    NothingCarried(db, base, c, low);
    assert generated[..0] == [] && Elements(generated[..0]) == {};
    for i := 0 to |generated|
      invariant session.nextUuid >= low
      invariant CarriedOver(db, base, session.db, c, slots, Elements(generated[..i]), low, session.nextUuid)
    {
      assert generated[..i + 1] == generated[..i] + [generated[i]];
      assert Elements(generated[..i + 1]) == Elements(generated[..i]) + {generated[i]};
      assert generated[i] in Elements(generated) && generated[i] !in Elements(generated[..i]);
      slots := CarryOne(session, c, generated[i], byKey, db, base, slots, Elements(generated[..i]), low);
    }
    assert generated[..|generated|] == generated;
  }

  lemma NothingCarried(db: Db, base: Db, c: Cut, low: int)
    requires base.noteTags == db.noteTags
    ensures CarriedOver(db, base, base, c, map[], {}, low, low)
  {
    hide CutBatch, Underway, KeptAmong, SlotsSoFar, TagsSoFar, Proper;
    var none: map<NoteId, Time> := map[];
    CutRows(db, c, none);
    Begin(base, CutBatch(db, c, none), c.now);
    NothingKept(db, base, c, low);
    assert KeptAmong(db, c, {}) + none.Keys == {};
  }

  lemma NothingKept(db: Db, base: Db, c: Cut, low: int)
    requires base.noteTags == db.noteTags
    ensures KeptAmong(db, c, {}) == {} && SlotsSoFar(db, c, map[], {}, low, low) && TagsSoFar(db, base, c, map[], {})
  {
    hide Affected, Kept, TagsFor, Vacant;
  }

  // One turn of the loop: look the instant up, then carry over or create.
  method CarryOne(session: Session, c: Cut, at: Time, byKey: map<Time, NoteId>, ghost db: Db, ghost base: Db,
                  ghost slots: map<NoteId, Time>, ghost seen: set<Time>, ghost low: int)
    returns (ghost slots': map<NoteId, Time>)
    requires CarriedOver(db, base, session.db, c, slots, seen, low, session.nextUuid)
    requires IsIndex(db, c, byKey) && base.notes == db.notes && base.rules == db.rules && RulesOwned(base)
            && Numbered(base)
    requires FreshFrom(db, low) && at in c.instants && at !in seen
    modifies session
    ensures CarriedOver(db, base, session.db, c, slots', seen + {at}, low, session.nextUuid)
    ensures session.nextUuid >= old(session.nextUuid)
  {
    hide CutBatch, Underway, RulesOwned, Numbered, Vacant, FreshFrom, TagsFor, SlotsSoFar, TagsSoFar, IsIndex, Affected;
    ghost var done, before, next := KeptAmong(db, c, seen) + slots.Keys, session.db, session.nextUuid;
    Unclaimed(db, c, slots, seen, low, next);
    if at !in byKey {
      var id := CreateOccurrence(session, c, at, db, base, slots, done);
      slots' := slots[id := at];
      OneCreated(db, c, byKey, slots, seen, at, low, next);
      TagsOfCreated(db, before, session.db, c, slots, seen, at, id);
      assert KeptAmong(db, c, seen + {at}) + slots'.Keys == done + {id};
    } else {
      var n := byKey[at];
      OneKept(db, c, byKey, slots, seen, at, low, next);
      CarryOver(session, c, at, n, db, base, slots, done);
      slots' := slots;
      TagsOfKept(db, before, session.db, c, slots, seen, at, n);
      assert KeptAmong(db, c, seen + {at}) + slots'.Keys == done + {n};
    }
  }

  lemma Unclaimed(db: Db, c: Cut, slots: map<NoteId, Time>, seen: set<Time>, low: int, next: int)
    requires SlotsSoFar(db, c, slots, seen, low, next) && FreshFrom(db, low)
    ensures next !in slots && next !in db.notes && next !in KeptAmong(db, c, seen)
    ensures slots.Keys !! db.notes.Keys
  {
    hide Vacant;
    forall n | n in slots.Keys ensures n !in db.notes.Keys {
    }
  }

  lemma OneCreated(db: Db, c: Cut, byKey: map<Time, NoteId>, slots: map<NoteId, Time>, seen: set<Time>, at: Time,
                   low: int, next: int)
    requires IsIndex(db, c, byKey) && at !in byKey && at in c.instants && at !in seen
    requires SlotsSoFar(db, c, slots, seen, low, next)
    ensures KeptAmong(db, c, seen + {at}) == KeptAmong(db, c, seen)
    ensures SlotsSoFar(db, c, slots[next := at], seen + {at}, low, next + 1)
  {
    hide Affected;
    var more := slots[next := at];
    AffectedKeys(db, c.s, c.key);
    forall n | n in Kept(db, c) ensures db.notes[n].recurrenceKey.value != at {
      assert n in Affected(db, c.s, c.key);
    }
    assert at in Vacant(db, c);
    assert forall n :: n in KeptAmong(db, c, seen + {at}) <==> n in KeptAmong(db, c, seen);
    forall t | t in seen + {at} && t in Vacant(db, c) ensures Filled(more, t) {
      if t == at { assert more[next] == at; }
      else { assert Filled(slots, t); var n :| n in slots && slots[n] == t; assert more[n] == t; }
    }
  }

  lemma OneKept(db: Db, c: Cut, byKey: map<Time, NoteId>, slots: map<NoteId, Time>, seen: set<Time>, at: Time,
                low: int, next: int)
    requires IsIndex(db, c, byKey) && at in byKey && at in c.instants && at !in seen
    requires SlotsSoFar(db, c, slots, seen, low, next) && slots.Keys !! db.notes.Keys
    ensures byKey[at] in Kept(db, c) && byKey[at] !in KeptAmong(db, c, seen) + slots.Keys
    ensures byKey[at] in db.notes && db.notes[byKey[at]].recurrenceKey == Some(at)
    ensures KeptAmong(db, c, seen + {at}) == KeptAmong(db, c, seen) + {byKey[at]}
    ensures SlotsSoFar(db, c, slots, seen + {at}, low, next)
  {
    AffectedIn(db, c.s, c.key);
    AffectedKeys(db, c.s, c.key);
    hide Affected;
    var n := byKey[at];
    assert n in Kept(db, c);
    forall m | m in Kept(db, c) && db.notes[m].recurrenceKey == Some(at) ensures m == n {
      assert m in Affected(db, c.s, c.key);
    }
    assert forall m :: m in KeptAmong(db, c, seen + {at}) <==> m in KeptAmong(db, c, seen) + {n};
    assert at !in Vacant(db, c);
  }

  lemma TagsOfCreated(db: Db, a: Db, b: Db, c: Cut, slots: map<NoteId, Time>, seen: set<Time>, at: Time, id: NoteId)
    requires TagsSoFar(db, a, c, slots, seen) && b.noteTags == a.noteTags + TagsFor({id}, c.fields.tags)
    requires KeptAmong(db, c, seen + {at}) == KeptAmong(db, c, seen)
    ensures TagsSoFar(db, b, c, slots[id := at], seen + {at})
  {
  }

  lemma TagsOfKept(db: Db, a: Db, b: Db, c: Cut, slots: map<NoteId, Time>, seen: set<Time>, at: Time, n: NoteId)
    requires TagsSoFar(db, a, c, slots, seen) && n !in slots && n !in KeptAmong(db, c, seen)
    requires b.noteTags == (set t | t in a.noteTags && t.note != n) + TagsFor({n}, c.fields.tags)
    requires KeptAmong(db, c, seen + {at}) == KeptAmong(db, c, seen) + {n}
    ensures TagsSoFar(db, b, c, slots, seen + {at})
  {
  }

  // for note in affected, those that were not kept
  method SupersedeEach(session: Session, c: Cut, dropped: seq<NoteId>, ghost db: Db, ghost base: Db,
                       ghost slots: map<NoteId, Time>)
    requires base.notes == db.notes && base.rules == db.rules && RulesOwned(base) && Numbered(base)
    requires Distinct(dropped) && Elements(dropped) == Superseded(db, c) && slots.Keys !! db.notes.Keys
    requires Underway(base, session.db, CutBatch(db, c, slots), Kept(db, c) + slots.Keys, c.now)
    modifies session`db
    ensures Underway(base, session.db, CutBatch(db, c, slots), Kept(db, c) + slots.Keys + Superseded(db, c), c.now)
    ensures session.db.noteTags == old(session.db).noteTags
  {
    hide CutBatch, Underway, RulesOwned, Numbered, Affected;
    CutRows(db, c, slots);
    ghost var done := Kept(db, c) + slots.Keys;
    for i := 0 to |dropped|
      invariant done == Kept(db, c) + slots.Keys + Elements(dropped[..i])
      invariant Underway(base, session.db, CutBatch(db, c, slots), done, c.now)
      invariant session.db.noteTags == old(session.db).noteTags
    {
      assert dropped[..i + 1] == dropped[..i] + [dropped[i]];
      assert dropped[i] in Elements(dropped) && dropped[i] !in Elements(dropped[..i]);
      Supersede(session, c, dropped[i], db, base, slots, done);
      done := done + {dropped[i]};
    }
    assert dropped[..|dropped|] == dropped;
  }

  // The predecessor is closed and the successor's own rows are inserted (lines 984-1005).
  method CloseSeries(session: Session, e: Settings, c: Cut)
    requires WellTyped(c.fields) && c.s in session.db.series && session.db.series[c.s].timezone in e.zones
    modifies session`db
    ensures session.db == WithSuccessor(old(session.db), e, c)
  {
    hide Strip, WallOf, Ordinal, LastDay;
    var old_ := session.db.series[c.s];
    var successor := SeriesRow(c.fields, old_.lineage, Some(c.s));
    session.db := session.db.(seriesTags := session.db.seriesTags + SeriesTagsFor(c.successor, c.fields.tags),
                              templates := session.db.templates + TemplatesFor(c.successor, c.fields.offsets));
    old_ := old_.(endDate := LastDay(e.zones[old_.timezone], c.key), splitBoundary := Some(c.key),
                  version := old_.version + 1);
    session.db := session.db.(series := session.db.series[c.s := old_][c.successor := successor]);
  }

  // The occurrences, then the affected notes that were not kept (lines 1008-1053).
  method ReplaceOccurrences(session: Session, c: Cut, generated: seq<Time>, byKey: map<Time, NoteId>,
                            dropped: seq<NoteId>, ghost db: Db)
    returns (ghost slots: map<NoteId, Time>)
    requires var base := session.db; base.notes == db.notes && base.rules == db.rules && base.noteTags == db.noteTags
    requires IsIndex(db, c, byKey) && RulesOwned(session.db) && Numbered(session.db) && FreshFrom(db, session.nextUuid)
    requires Distinct(generated) && Elements(generated) == c.instants
    requires Distinct(dropped) && Elements(dropped) == Superseded(db, c)
    modifies session
    ensures Fills(db, slots, Vacant(db, c)) && Proper(CutBatch(db, c, slots))
    ensures session.db == Applied(old(session.db), CutBatch(db, c, slots), c.now).(noteTags := TagsAfter(db, c, slots))
  {
    hide CutBatch, Underway, RulesOwned, Numbered, FreshFrom, IsIndex, Applied, CarriedOver, TagsAfter, Fills,
         Superseded, Kept;
    ghost var base, low := session.db, session.nextUuid;
    slots := CarryEach(session, c, generated, byKey, db, base);
    AllCarried(db, base, session.db, c, slots, low, session.nextUuid);
    SupersedeEach(session, c, dropped, db, base, slots);
    CutRows(db, c, slots);
    Finish(base, session.db, CutBatch(db, c, slots), Kept(db, c) + slots.Keys + Superseded(db, c), c.now);
  }

  // lines 984-1069
  method ReplaceFrom(session: Session, e: Settings, c: Cut, generated: seq<Time>)
    returns (ghost slots: map<NoteId, Time>)
    requires StoreInv(session.db) && FreshFrom(session.db, session.nextUuid)
    requires Distinct(generated) && Elements(generated) == c.instants && WellTyped(c.fields)
    requires c.s in session.db.series && session.db.series[c.s].timezone in e.zones && c.successor !in session.db.series
    modifies session
    ensures Fills(old(session.db), slots, Vacant(old(session.db), c))
    ensures session.db == AfterSplit(old(session.db), e, c, slots)
  {
    hide StoreInv, CutBatch, RulesOwned, Numbered, FreshFrom, IsIndex, Applied, TagsAfter, Fills, Superseded,
         ExceptionsLeft, ClosedRow, SeriesRow;
    var db := session.db;
    StoreNumbered(db);
    SlotsInOrder(db);
    var byKey := IndexByKey(db, c);
    var dropped := Listing(Superseded(db, c));
    CloseSeries(session, e, c);
    StillNumbered(db, session.db);
    slots := ReplaceOccurrences(session, c, generated, byKey, dropped, db);
    SplitTables(db, e, c, slots);
    session.db := session.db.(exceptions := ExceptionsLeft(db, c),
                              outbox := session.db.outbox + [Event(SeriesUpdated, SeriesEntity(c.successor), 1)]);
  }

  lemma SlotsInOrder(db: Db)
    requires StoreInv(db)
    ensures SlotInv(db)
  {
  }

  lemma AllCarried(db: Db, base: Db, cur: Db, c: Cut, slots: map<NoteId, Time>, low: int, next: int)
    requires CarriedOver(db, base, cur, c, slots, c.instants, low, next) && FreshFrom(db, low)
    ensures Underway(base, cur, CutBatch(db, c, slots), Kept(db, c) + slots.Keys, c.now)
    ensures Fills(db, slots, Vacant(db, c)) && cur.noteTags == TagsAfter(db, c, slots) && slots.Keys !! db.notes.Keys
  {
    hide CutBatch, Underway, TagsFor, Affected;
    assert KeptAmong(db, c, c.instants) == Kept(db, c);
    Unclaimed(db, c, slots, c.instants, low, next);
  }

  lemma SplitTables(db: Db, e: Settings, c: Cut, slots: map<NoteId, Time>)
    requires WellTyped(c.fields) && c.s in db.series && db.series[c.s].timezone in e.zones
    ensures var a := Applied(WithSuccessor(db, e, c), CutBatch(db, c, slots), c.now);
            a == WithSuccessor(db, e, c).(notes := a.notes, rules := a.rules, deliveries := a.deliveries)
  {
  }
}

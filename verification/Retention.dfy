/** What stays in the trash, and for how long: nothing is purged before its retention is over,
    and until then a recurring-trash action that was not restored can be. */
module Retention {
  import opened Prelude
  import opened Storage
  import opened Reconciliation
  import opened Progress
  import opened Invariants
  import opened Lineage
  import opened Store
  import opened Api
  import opened NoteHandlers
  import opened TrashActions
  import opened Reminders
  import opened Transactions
  import opened Effects
  import opened Protocol
  import C = SeriesCreation
  import S = Split
  import M = Maintenance
  import T = Tags
  import R = ReminderJobs

  /** The note stays unpurged, and in the action that holds it. */
  predicate Stays(a: Db, b: Db, n: NoteId) {
    if n in a.notes
    then n in b.notes && (b.notes[n].purgedAt.Some? ==> a.notes[n].purgedAt.Some?)
      && (a.notes[n].action.Some? ==> b.notes[n].action == a.notes[n].action)
    else n in b.notes ==> b.notes[n].purgedAt.None?
  }

  /** The transaction restores the action that holds the note, or purges what was deleted as
      early as the note. */
  predicate Releases(a: Db, tx: Tx, n: NoteId) {
    n in a.notes
    && ((tx.RestoreActionTx? && a.notes[n].action == Some(tx.action))
        || (tx.PurgeTx? && a.notes[n].deletedAt.Some? && a.notes[n].deletedAt.value <= tx.cutoff))
  }

  lemma SameNotesStay(a: Db, b: Db, n: NoteId)
    requires b.notes == a.notes
    ensures Stays(a, b, n)
  {
  }

  lemma SaveStays(a: Db, locked: Db, id: NoteId, e: Edit, now: Time, n: NoteId)
    requires Editable(a, id, e) && locked == a.(series := locked.series)
    ensures Stays(a, Save(locked, id, e, now), n)
  {
    hide Reconcile, WithTags, OverridesOf;
  }

  lemma NoteTxStays(a: Db, b: Db, tx: Tx, now: Time, n: NoteId)
    requires StoreInv(a) && Commits(a, b, tx, now)
    requires tx.CreateNoteTx? || tx.UpdateNoteTx? || tx.DeleteNoteTx? || tx.RestoreNoteTx?
    ensures Stays(a, b, n)
  {
    hide StoreInv, Save, Strip, LockSeries, Keeps, Stays;
    if tx.CreateNoteTx? {
      var f := tx.fields;
      var row := Note(Strip(f.title), f.body, f.startsAt, f.active, None, None, None, None, None, None, None, 1);
      SaveStays(a, a, tx.id, Edit(row, Some(f.tags), f.offsets, false, None, NoteCreated), now, n);
    } else {
      var old_ := a.notes[tx.id];
      LockKeeps(a, tx.id, tx.seriesVersion);
      var locked := LockSeries(a, old_, tx.seriesVersion).value;
      if tx.UpdateNoteTx? {
        var f := tx.fields;
        NotInAction(a, tx.id);
        var row := old_.(title := Strip(f.title), body := f.body, startsAt := f.startsAt, active := f.active,
                         version := old_.version + 1);
        SaveStays(a, locked, tx.id,
                  Edit(row, Some(f.tags), f.offsets, old_.startsAt != f.startsAt, None, NoteUpdated), now, n);
      } else if tx.RestoreNoteTx? {
        SaveStays(a, locked, tx.id,
                  Edit(old_.(deletedAt := None, version := old_.version + 1), None, EnabledOffsets(a, tx.id),
                       false, Some(false), NoteRestored), now, n);
      } else if old_.deletedAt.Some? { SameNotesStay(a, b, n); }
      else {
        NotInAction(a, tx.id);
        SaveStays(a, locked, tx.id,
                  Edit(old_.(deletedAt := Some(now), version := old_.version + 1), None, EnabledOffsets(a, tx.id),
                       false, Some(true), NoteDeleted), now, n);
      }
    }
  }

  lemma CreatedStays(a: Db, s: SeriesId, f: C.SeriesFields, slots: map<NoteId, Time>, now: Time, n: NoteId)
    requires C.WellTyped(f) && slots.Keys !! a.notes.Keys
    ensures Stays(a, C.CreatedSeries(a, s, f, slots, now), n)
  {
    hide Reconcile, Strip, C.TagsFor, C.SeriesTagsFor, C.TemplatesFor;
  }

  lemma SplitStays(a: Db, e: C.Settings, c: S.Cut, slots: map<NoteId, Time>, n: NoteId)
    requires S.Acceptable(a, e, c, slots)
    ensures Stays(a, S.AfterSplit(a, e, c, slots), n)
  {
    hide Reconcile, Strip, S.CutBatch, S.TagsAfter, S.ExceptionsLeft, S.Collides;
    S.CutRows(a, c, slots);
  }

  lemma TrashStays(a: Db, s: SeriesId, boundary: Time, x: ActionId, now: Time, n: NoteId)
    requires TrashInv(a) && s in a.series
    ensures Stays(a, Trashed(a, s, boundary, x, now), n)
  {
    hide Reconcile, EnabledOffsets;
    if n in a.notes && a.notes[n].action.Some? { HeldIsPinned(a, n); }
  }

  lemma HeldIsPinned(a: Db, n: NoteId)
    requires TrashInv(a) && n in a.notes && a.notes[n].action.Some?
    ensures Pinned(a, a.notes[n].action.value, n)
  {
    assert PointsHome(a, n);
    var m := Membership(a.notes[n].action.value, n);
    assert Pinned(a, m.action, m.note);
  }

  lemma RestoreStays(a: Db, x: ActionId, v: int, selected: Option<Selected>, now: Time, n: NoteId)
    requires TrashInv(a) && RestoreAction(a, x, v, selected, now).Success?
    requires n in a.notes ==> a.notes[n].action != Some(x)
    ensures Stays(a, RestoreAction(a, x, v, selected, now).value, n)
  {
    hide Reconcile, EnabledOffsets, TrashInv;
    RestorableIsOpen(a, x, v, selected, now);
  }

  lemma RestorePurgesNone(a: Db, x: ActionId, v: int, selected: Option<Selected>, now: Time, n: NoteId)
    requires RestoreAction(a, x, v, selected, now).Success?
    ensures Purged(RestoreAction(a, x, v, selected, now).value, n) ==> Purged(a, n)
  {
    hide Reconcile, EnabledOffsets;
  }

  lemma PurgeStays(a: Db, b: Db, tx: Tx, now: Time, n: NoteId)
    requires TrashInv(a) && tx.PurgeTx? && Commits(a, b, tx, now) && !Releases(a, tx, n)
    ensures Stays(a, b, n)
  {
    hide M.EmptiedSeries, M.PurgedExceptions, M.Candidates, M.PurgeEvents, TrashInv;
  }

  lemma TagStays(a: Db, tag: TagId, order: seq<SeriesId>, n: NoteId)
    requires tag in a.tags && Elements(order) == T.TaggedSeries(a, tag)
    ensures Stays(a, T.DeletedTag(a, tag, order), n)
  {
    hide T.SeriesEvents, T.Tagged, T.TaggedSeries;
  }

  lemma JobTxStays(a: Db, b: Db, tx: Tx, now: Time, n: NoteId)
    requires Commits(a, b, tx, now) && (tx.ClaimTx? || tx.AuthorizeTx? || tx.FinishTx? || tx.ClassifyTx?)
    ensures Stays(a, b, n)
  {
    hide Stays, ClaimBatch, Classify, Authorize, RecordOutcome, ClaimableKeys, R.StaleKeys;
    match tx
    case ClaimTx(t, tokens) => SameTables(a, t, tokens); SameNotesStay(a, b, n);
    case AuthorizeTx(task, grace, recipient) =>
      AuthorizeTables(a, task.delivery, task.token, now, grace, recipient);
      SameNotesStay(a, b, n);
    case FinishTx(dk, o) => FinishTables(a, dk, o, now); SameNotesStay(a, b, n);
    case ClassifyTx(rows, olderThan) => ClassifyTables(a, rows, now); SameNotesStay(a, b, n);
  }

  /** Only the restore of its action or a purge past its deletion takes a note out of an action,
      and only such a purge purges it. */
  lemma TxReleases(a: Db, b: Db, tx: Tx, now: Time, n: NoteId)
    requires StoreInv(a) && Commits(a, b, tx, now) && !Releases(a, tx, n)
    ensures Stays(a, b, n)
  {
    hide ReminderInv, SlotInv, TrashInv, LineageInv, RedactionInv, Save, Trashed, Restored, RestoreAction,
         C.CreatedSeries, S.AfterSplit, S.SplitError, C.SeriesError, S.Acceptable, Portion, SeriesKeys, C.Fills,
         CreateNote, UpdateNote, DeleteNote, RestoreNote, Keeps, M.Purge, M.Targets, M.ExpiredNotes, T.DeletedTag,
         Stays, ClaimBatch, Classify, Authorize, RecordOutcome, ClaimableKeys, R.StaleKeys;
    match tx
    case CreateSeriesTx(e, s, f, slots) =>
      SeriesCreated(a, b, tx, now);
      CreatedStays(a, s, f, slots, now, n);
    case SplitTx(e, s, r, successor, slots) =>
      SplitFacts(a, b, tx, now);
      SplitStays(a, e, CutOf(tx, now), slots, n);
    case TrashTx(s, _, _, boundary, x) => TrashStays(a, s, boundary, x, now, n);
    case RestoreActionTx(x, v, selected) => RestoreStays(a, x, v, selected, now, n);
    case DeleteTagTx(tag, order) => TagStays(a, tag, order, n);
    case PurgeTx(picked, order, cutoff) => PurgeStays(a, b, tx, now, n);
    case CreateNoteTx(_, _) => NoteTxStays(a, b, tx, now, n);
    case UpdateNoteTx(_, _, _, _) => NoteTxStays(a, b, tx, now, n);
    case DeleteNoteTx(_, _, _) => NoteTxStays(a, b, tx, now, n);
    case RestoreNoteTx(_, _, _) => NoteTxStays(a, b, tx, now, n);
    case _ => JobTxStays(a, b, tx, now, n);
  }

  // ---------- over runs ----------

  /** A purge looks for what was deleted a retention period ago or earlier. */
  predicate Retains(step: Step) {
    step.Transact? && step.tx.PurgeTx? ==> step.tx.cutoff == step.now - RETENTION
  }

  lemma StepReleases(w: World, w': World, step: Step, n: NoteId)
    requires StoreInv(w.db) && Next(w, w', step)
    requires TxOf(w, step).Some? ==> !Releases(w.db, TxOf(w, step).value.0, n)
    ensures Stays(w.db, w'.db, n)
  {
    hide StoreInv, Commits, Next, TxOf, Stays;
    StepCommits(w, w', step);
    match TxOf(w, step)
    case Some(p) => TxReleases(w.db, w'.db, p.0, p.1, n);
    case None => SameNotesStay(w.db, w'.db, n);
  }

  lemma RestoreStep(w: World, w': World, step: Step, n: NoteId)
    requires Next(w, w', step) && step.Transact? && step.tx.RestoreActionTx?
    ensures Purged(w'.db, n) ==> Purged(w.db, n)
  {
    hide RestoreAction;
    RestorePurgesNone(w.db, step.tx.action, step.tx.version, step.tx.selected, step.now, n);
  }

  /** No step of any run purges a note before its retention is over. */
  lemma NoEarlyPurge(run: seq<World>, steps: seq<Step>, i: nat, n: NoteId)
    requires Run(run, steps) && i < |steps| && Retains(steps[i])
    requires !Purged(run[i].db, n) && Purged(run[i + 1].db, n)
    ensures steps[i].Transact? && steps[i].tx.PurgeTx? && n in run[i].db.notes
    ensures run[i].db.notes[n].deletedAt.Some? && run[i].db.notes[n].deletedAt.value + RETENTION <= steps[i].now
  {
    hide StoreInv, HistoryInv, WorkerInv, Next;
    Safety(run, steps, i);
    assert Next(run[i], run[i + 1], steps[i]);
    var s := steps[i];
    if s.Transact? && s.tx.RestoreActionTx? {
      RestoreStep(run[i], run[i + 1], s, n);
    } else if TxOf(run[i], s).None? || !Releases(run[i].db, TxOf(run[i], s).value.0, n) {
      StepReleases(run[i], run[i + 1], s, n);
    }
  }

  predicate RestoresAction(step: Step, x: ActionId) {
    step.Transact? && step.tx.RestoreActionTx? && step.tx.action == x
  }

  /** The action is open, and restoring it now succeeds as long as it is retained. */
  ghost predicate Restorable(db: Db, x: ActionId) {
    && x in db.actions && OpenAction(db, x) && db.actions[x].series in db.series
    && forall now :: RestoreAction(db, x, db.series[db.actions[x].series].version, None, now).Success?
                     <==> now < db.actions[x].trashedAt + RETENTION
  }

  lemma OpenIsRestorable(db: Db, x: ActionId)
    requires StoreInv(db) && x in db.actions && !Closed(db, x)
    ensures Restorable(db, x)
  {
    hide ReminderInv, LineageInv, NoteRedaction;
    OpenOrClosed(db, x);
    var n :| n in db.notes && db.notes[n].action == Some(x);
    HeldIsPinned(db, n);
    assert Slotted(db, n);
    assert PointsHome(db, n);
    var ids := MembersOf(db, x);
    var current := set m | m in ids && db.notes[m].action == Some(x);
    assert Membership(x, n) in db.members;
    assert n in current;
    assert current == ids;
  }

  lemma {:induction false} HeldOn(run: seq<World>, steps: seq<Step>, clock: seq<Time>, i: nat, j: nat, x: ActionId,
                                  n: NoteId)
    requires Run(run, steps) && Clocked(steps, clock) && i <= j < |run|
    requires forall k :: i <= k < j ==> Retains(steps[k]) && !RestoresAction(steps[k], x)
    requires x in run[i].db.actions && clock[j] < run[i].db.actions[x].trashedAt + RETENTION
    requires n in run[i].db.notes && run[i].db.notes[n].action == Some(x)
    ensures n in run[j].db.notes && run[j].db.notes[n].action == Some(x)
    decreases j
  {
    hide ReminderInv, SlotInv, LineageInv, RedactionInv, TrashInv, HistoryInv, WorkerInv, Next, DeliveriesAdvance;
    if i < j {
      var w := run[j - 1];
      HeldOn(run, steps, clock, i, j - 1, x, n);
      Safety(run, steps, j - 1);
      Forwards(run, steps, i, j - 1);
      assert ActionAdvances(run[i].db, w.db, x);
      HeldIsPinned(w.db, n);
      assert Next(w, run[j], steps[j - 1]);
      StepReleases(w, run[j], steps[j - 1], n);
    }
  }

  /** In a run with clocks that do not run backwards, an open action that nobody restores stays
      open and restorable, whatever else happens, until its retention is over. */
  lemma RestorableWithinRetention(run: seq<World>, steps: seq<Step>, clock: seq<Time>, i: nat, j: nat, x: ActionId)
    requires Run(run, steps) && Clocked(steps, clock) && i <= j < |run|
    requires forall k :: i <= k < j ==> Retains(steps[k]) && !RestoresAction(steps[k], x)
    requires x in run[i].db.actions && !Closed(run[i].db, x)
    requires clock[j] < run[i].db.actions[x].trashedAt + RETENTION
    ensures Restorable(run[j].db, x) && run[j].db.actions[x] == run[i].db.actions[x]
  {
    hide StoreInv, HistoryInv, WorkerInv, Next, Restorable, DeliveriesAdvance;
    var n :| n in run[i].db.notes && run[i].db.notes[n].action == Some(x);
    HeldOn(run, steps, clock, i, j, x, n);
    Safety(run, steps, j);
    Forwards(run, steps, i, j);
    assert ActionAdvances(run[i].db, run[j].db, x);
    OpenIsRestorable(run[j].db, x);
  }

  // ---------- notes deleted on their own ----------

  /** A note in the trash that no action holds. */
  predicate AloneInTrash(db: Db, n: NoteId) {
    Visible(db, n) && db.notes[n].deletedAt.Some? && db.notes[n].action.None?
  }

  /** The transaction restores the note, splits its series at or before it, or purges what was
      deleted as early. */
  predicate Takes(a: Db, tx: Tx, n: NoteId) {
    || (tx.RestoreNoteTx? && tx.id == n)
    || (tx.SplitTx? && n in S.Affected(a, tx.s, tx.request.key))
    || Releases(a, tx, n)
  }

  /** The note is as it was; a tag that was deleted has bumped its version. */
  predicate Rests(a: Db, b: Db, n: NoteId)
    requires n in a.notes
  {
    n in b.notes && b.notes[n] == a.notes[n].(version := b.notes[n].version)
  }

  lemma SaveRests(a: Db, locked: Db, id: NoteId, e: Edit, now: Time, n: NoteId)
    requires n in a.notes && id != n && locked == a.(series := locked.series)
    ensures Rests(a, Save(locked, id, e, now), n)
  {
    hide Reconcile, WithTags, OverridesOf;
  }

  lemma SameNotesRest(a: Db, b: Db, n: NoteId)
    requires n in a.notes && b.notes == a.notes
    ensures Rests(a, b, n)
  {
  }

  lemma NoteTxRests(a: Db, b: Db, tx: Tx, now: Time, n: NoteId)
    requires StoreInv(a) && Commits(a, b, tx, now) && AloneInTrash(a, n) && !Takes(a, tx, n)
    requires tx.CreateNoteTx? || tx.UpdateNoteTx? || tx.DeleteNoteTx? || tx.RestoreNoteTx?
    ensures Rests(a, b, n)
  {
    hide StoreInv, Save, Strip, LockSeries, Keeps, Rests;
    if tx.CreateNoteTx? {
      var f := tx.fields;
      var row := Note(Strip(f.title), f.body, f.startsAt, f.active, None, None, None, None, None, None, None, 1);
      SaveRests(a, a, tx.id, Edit(row, Some(f.tags), f.offsets, false, None, NoteCreated), now, n);
    } else {
      var old_ := a.notes[tx.id];
      LockKeeps(a, tx.id, tx.seriesVersion);
      var locked := LockSeries(a, old_, tx.seriesVersion).value;
      if tx.UpdateNoteTx? {
        var f := tx.fields;
        var row := old_.(title := Strip(f.title), body := f.body, startsAt := f.startsAt, active := f.active,
                         version := old_.version + 1);
        SaveRests(a, locked, tx.id,
                  Edit(row, Some(f.tags), f.offsets, old_.startsAt != f.startsAt, None, NoteUpdated), now, n);
      } else if tx.RestoreNoteTx? {
        SaveRests(a, locked, tx.id,
                  Edit(old_.(deletedAt := None, version := old_.version + 1), None, EnabledOffsets(a, tx.id),
                       false, Some(false), NoteRestored), now, n);
      } else if old_.deletedAt.Some? { SameNotesRest(a, b, n); }
      else {
        SaveRests(a, locked, tx.id,
                  Edit(old_.(deletedAt := Some(now), version := old_.version + 1), None, EnabledOffsets(a, tx.id),
                       false, Some(true), NoteDeleted), now, n);
      }
    }
  }

  lemma CreatedRests(a: Db, s: SeriesId, f: C.SeriesFields, slots: map<NoteId, Time>, now: Time, n: NoteId)
    requires C.WellTyped(f) && slots.Keys !! a.notes.Keys && n in a.notes
    ensures Rests(a, C.CreatedSeries(a, s, f, slots, now), n)
  {
    hide Reconcile, Strip, C.TagsFor, C.SeriesTagsFor, C.TemplatesFor;
  }

  lemma SplitRests(a: Db, e: C.Settings, c: S.Cut, slots: map<NoteId, Time>, n: NoteId)
    requires S.Acceptable(a, e, c, slots) && n in a.notes && n !in S.Affected(a, c.s, c.key)
    ensures Rests(a, S.AfterSplit(a, e, c, slots), n)
  {
    hide Reconcile, Strip, S.CutBatch, S.TagsAfter, S.ExceptionsLeft, S.Collides, S.Affected;
    S.CutRows(a, c, slots);
  }

  lemma TrashRests(a: Db, s: SeriesId, boundary: Time, x: ActionId, now: Time, n: NoteId)
    requires s in a.series && AloneInTrash(a, n)
    ensures Rests(a, Trashed(a, s, boundary, x, now), n)
  {
    hide Reconcile, EnabledOffsets;
  }

  lemma RestoreRests(a: Db, x: ActionId, v: int, selected: Option<Selected>, now: Time, n: NoteId)
    requires TrashInv(a) && RestoreAction(a, x, v, selected, now).Success? && AloneInTrash(a, n)
    ensures Rests(a, RestoreAction(a, x, v, selected, now).value, n)
  {
    hide Reconcile, EnabledOffsets, TrashInv;
    RestorableIsOpen(a, x, v, selected, now);
  }

  lemma PurgeRests(a: Db, b: Db, tx: Tx, now: Time, n: NoteId)
    requires tx.PurgeTx? && Commits(a, b, tx, now) && AloneInTrash(a, n) && !Releases(a, tx, n)
    ensures Rests(a, b, n)
  {
    hide M.EmptiedSeries, M.PurgedExceptions, M.Candidates, M.PurgeEvents;
  }

  lemma TagRests(a: Db, tag: TagId, order: seq<SeriesId>, n: NoteId)
    requires tag in a.tags && Elements(order) == T.TaggedSeries(a, tag) && n in a.notes
    ensures Rests(a, T.DeletedTag(a, tag, order), n)
  {
    hide T.SeriesEvents, T.Tagged, T.TaggedSeries;
  }

  lemma JobTxRests(a: Db, b: Db, tx: Tx, now: Time, n: NoteId)
    requires Commits(a, b, tx, now) && (tx.ClaimTx? || tx.AuthorizeTx? || tx.FinishTx? || tx.ClassifyTx?)
    requires n in a.notes
    ensures Rests(a, b, n)
  {
    hide Rests, ClaimBatch, Classify, Authorize, RecordOutcome, ClaimableKeys, R.StaleKeys;
    match tx
    case ClaimTx(t, tokens) => SameTables(a, t, tokens); SameNotesRest(a, b, n);
    case AuthorizeTx(task, grace, recipient) =>
      AuthorizeTables(a, task.delivery, task.token, now, grace, recipient);
      SameNotesRest(a, b, n);
    case FinishTx(dk, o) => FinishTables(a, dk, o, now); SameNotesRest(a, b, n);
    case ClassifyTx(rows, olderThan) => ClassifyTables(a, rows, now); SameNotesRest(a, b, n);
  }

  /** A note deleted on its own is out of reach of every transaction but three: its restore, a
      split of its series at or before it, and a purge past its deletion. */
  lemma TxTakes(a: Db, b: Db, tx: Tx, now: Time, n: NoteId)
    requires StoreInv(a) && Commits(a, b, tx, now) && AloneInTrash(a, n) && !Takes(a, tx, n)
    ensures Rests(a, b, n) && AloneInTrash(b, n)
  {
    hide ReminderInv, SlotInv, TrashInv, LineageInv, RedactionInv, Save, Trashed, Restored, RestoreAction,
         C.CreatedSeries, S.AfterSplit, S.SplitError, C.SeriesError, S.Acceptable, Portion, SeriesKeys, C.Fills,
         CreateNote, UpdateNote, DeleteNote, RestoreNote, Keeps, M.Purge, M.Targets, M.ExpiredNotes, T.DeletedTag,
         ClaimBatch, Classify, Authorize, RecordOutcome, ClaimableKeys, R.StaleKeys, S.Affected;
    match tx
    case CreateSeriesTx(e, s, f, slots) =>
      SeriesCreated(a, b, tx, now);
      CreatedRests(a, s, f, slots, now, n);
    case SplitTx(e, s, r, successor, slots) =>
      SplitFacts(a, b, tx, now);
      SplitRests(a, e, CutOf(tx, now), slots, n);
    case TrashTx(s, _, _, boundary, x) => TrashRests(a, s, boundary, x, now, n);
    case RestoreActionTx(x, v, selected) => RestoreRests(a, x, v, selected, now, n);
    case DeleteTagTx(tag, order) => TagRests(a, tag, order, n);
    case PurgeTx(picked, order, cutoff) => PurgeRests(a, b, tx, now, n);
    case CreateNoteTx(_, _) => NoteTxRests(a, b, tx, now, n);
    case UpdateNoteTx(_, _, _, _) => NoteTxRests(a, b, tx, now, n);
    case DeleteNoteTx(_, _, _) => NoteTxRests(a, b, tx, now, n);
    case RestoreNoteTx(_, _, _) => NoteTxRests(a, b, tx, now, n);
    case _ => JobTxRests(a, b, tx, now, n);
  }

  /** What the restore of the note must name: the version of its series, if it has one. */
  function SeriesVersionOf(db: Db, n: NoteId): Option<int>
    requires n in db.notes
  {
    var s := db.notes[n].seriesId;
    if s.Some? && s.value in db.series then Some(db.series[s.value].version) else None
  }

  /** Restoring the note now succeeds exactly as long as it is retained. */
  ghost predicate RestorableNote(db: Db, n: NoteId) {
    && AloneInTrash(db, n)
    && forall now :: RestoreNote(db, n, db.notes[n].version, SeriesVersionOf(db, n), now).Success?
                     <==> now < db.notes[n].deletedAt.value + RETENTION
  }

  lemma AloneIsRestorable(db: Db, n: NoteId)
    requires AloneInTrash(db, n)
    ensures RestorableNote(db, n)
  {
    hide Save;
  }

  /** The step, if it commits a transaction, takes the note. */
  predicate StepTakes(w: World, step: Step, n: NoteId) {
    TxOf(w, step).Some? && Takes(w.db, TxOf(w, step).value.0, n)
  }

  /** Someone restores the note or splits its series at or before it. */
  predicate WriterTakes(w: World, step: Step, n: NoteId) {
    step.Transact? && !step.tx.PurgeTx? && Takes(w.db, step.tx, n)
  }

  lemma NotTakenYet(w: World, step: Step, n: NoteId)
    requires AloneInTrash(w.db, n) && Retains(step) && !WriterTakes(w, step, n)
    requires StepTime(step).Some? ==> StepTime(step).value < w.db.notes[n].deletedAt.value + RETENTION
    ensures !StepTakes(w, step, n)
  {
    hide S.Affected;
  }

  lemma StepRests(w: World, w': World, step: Step, n: NoteId)
    requires StoreInv(w.db) && Next(w, w', step) && AloneInTrash(w.db, n) && !StepTakes(w, step, n)
    ensures Rests(w.db, w'.db, n) && AloneInTrash(w'.db, n)
  {
    hide StoreInv, Commits, Next, TxOf, Takes;
    StepCommits(w, w', step);
    match TxOf(w, step)
    case Some(p) => TxTakes(w.db, w'.db, p.0, p.1, n);
    case None =>
  }

  /** In a run with clocks that do not run backwards, a note deleted on its own that nobody
      restores or splits away stays as it was and restorable until its retention is over. */
  lemma {:induction false} NoteRestorableWithinRetention(run: seq<World>, steps: seq<Step>, clock: seq<Time>, i: nat,
                                                         j: nat, n: NoteId)
    requires Run(run, steps) && Clocked(steps, clock) && i <= j < |run| && AloneInTrash(run[i].db, n)
    requires forall k :: i <= k < j ==> Retains(steps[k]) && !WriterTakes(run[k], steps[k], n)
    requires clock[j] < run[i].db.notes[n].deletedAt.value + RETENTION
    ensures Rests(run[i].db, run[j].db, n) && RestorableNote(run[j].db, n)
    decreases j
  {
    hide StoreInv, HistoryInv, WorkerInv, Next, StepTakes, WriterTakes, RestorableNote;
    if i < j {
      NoteRestorableWithinRetention(run, steps, clock, i, j - 1, n);
      assert AloneInTrash(run[j - 1].db, n);
      Safety(run, steps, j - 1);
      assert Next(run[j - 1], run[j], steps[j - 1]);
      NotTakenYet(run[j - 1], steps[j - 1], n);
      StepRests(run[j - 1], run[j], steps[j - 1], n);
    }
    AloneIsRestorable(run[j].db, n);
  }
}

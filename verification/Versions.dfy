/** Optimistic locking: every write of a note or a series bumps its version, an accepted request
    names the versions in force, and so no accepted request overwrites another unseen. */
module Versions {
  import opened Prelude
  import opened Storage
  import opened Reconciliation
  import opened Invariants
  import opened Lineage
  import opened Store
  import opened Api
  import opened NoteHandlers
  import opened TrashActions
  import opened Reminders
  import opened Transactions
  import opened Effects
  import opened Protocol
  import C = SeriesCreation
  import S = Split
  import M = Maintenance
  import T = Tags
  import R = ReminderJobs
  import N = NoteRequests
  import Q = SeriesRequests
  import D = TrashResults

  /** No row of a note or a series goes, and one that changed has a later version. */
  ghost predicate Versioned(a: Db, b: Db) {
    && (forall n :: n in a.notes ==>
          n in b.notes && (b.notes[n] == a.notes[n] || b.notes[n].version > a.notes[n].version))
    && (forall s :: s in a.series ==>
          s in b.series && (b.series[s] == a.series[s] || b.series[s].version > a.series[s].version))
  }

  lemma SameRows(a: Db, b: Db)
    requires b.notes == a.notes && b.series == a.series
    ensures Versioned(a, b)
  {
  }

  lemma SavedVersions(a: Db, b: Db, id: NoteId, row: Note, tags: set<TagId>, offsets: set<int>,
                      cancelled: Option<bool>, event: EventType)
    requires N.SavedAs(a, b, id, row, tags, offsets, cancelled, event)
    requires id in a.notes ==> row.version > a.notes[id].version && N.SeriesBumped(a, b, id)
    requires id !in a.notes ==> b.series == a.series
    ensures Versioned(a, b)
  {
    hide N.ExceptionWritten;
    forall n | n in a.notes
      ensures n in b.notes && (b.notes[n] == a.notes[n] || b.notes[n].version > a.notes[n].version)
    {
      if n != id { assert N.SameNoteRow(a, b, n); }
    }
  }

  lemma NoteTxVersions(a: Db, b: Db, tx: Tx, now: Time)
    requires Commits(a, b, tx, now)
    requires tx.CreateNoteTx? || tx.UpdateNoteTx? || tx.DeleteNoteTx? || tx.RestoreNoteTx?
    ensures Versioned(a, b)
  {
    hide CreateNote, UpdateNote, DeleteNote, RestoreNote, Strip, N.SavedAs, N.Current, N.SeriesBumped, TagsOf,
         EnabledOffsets, Versioned;
    match tx
    case CreateNoteTx(id, f) =>
      N.CreateMeans(a, id, f, now);
      SavedVersions(a, b, id,
                    Note(Strip(f.title), f.body, f.startsAt, f.active, None, None, None, None, None, None, None, 1),
                    f.tags, f.offsets, None, NoteCreated);
    case UpdateNoteTx(id, v, sv, f) =>
      N.UpdateMeans(a, id, v, sv, f, now);
      NamesKnown(a, id, v, sv);
      SavedVersions(a, b, id,
                    a.notes[id].(title := Strip(f.title), body := f.body, startsAt := f.startsAt, active := f.active,
                                 version := a.notes[id].version + 1),
                    f.tags, f.offsets, None, NoteUpdated);
    case DeleteNoteTx(id, v, sv) =>
      N.DeleteMeans(a, id, v, sv, now);
      NamesKnown(a, id, v, sv);
      if a.notes[id].deletedAt.Some? { BumpVersions(a, b, id); }
      else {
        SavedVersions(a, b, id, a.notes[id].(deletedAt := Some(now), version := a.notes[id].version + 1),
                      TagsOf(a, id), EnabledOffsets(a, id), Some(true), NoteDeleted);
      }
    case RestoreNoteTx(id, v, sv) =>
      N.RestoreMeans(a, id, v, sv, now);
      SavedVersions(a, b, id, a.notes[id].(deletedAt := None, version := a.notes[id].version + 1),
                    TagsOf(a, id), EnabledOffsets(a, id), Some(false), NoteRestored);
  }

  lemma NamesKnown(a: Db, id: NoteId, v: int, sv: Option<int>)
    requires N.Current(a, id, v, sv)
    ensures id in a.notes && a.notes[id].version == v
    ensures N.Recurs(a, id) ==> sv == Some(a.series[a.notes[id].seriesId.value].version)
  {
  }

  lemma BumpVersions(a: Db, b: Db, id: NoteId)
    requires id in a.notes && N.SeriesBumped(a, b, id) && b.notes == a.notes
    ensures Versioned(a, b)
  {
  }

  lemma CreatedVersions(a: Db, s: SeriesId, f: C.SeriesFields, slots: map<NoteId, Time>, now: Time)
    requires C.WellTyped(f) && s !in a.series && slots.Keys !! a.notes.Keys
    ensures Versioned(a, C.CreatedSeries(a, s, f, slots, now))
  {
    hide Reconcile, Strip, C.TagsFor, C.SeriesTagsFor, C.TemplatesFor;
  }

  lemma SplitVersions(a: Db, e: C.Settings, c: S.Cut, slots: map<NoteId, Time>)
    requires S.Acceptable(a, e, c, slots)
    ensures Versioned(a, S.AfterSplit(a, e, c, slots))
  {
    hide Reconcile, Strip, S.CutBatch, S.TagsAfter, S.ExceptionsLeft, S.Collides, S.Affected, S.LastDay, S.AtKey;
    S.CutRows(a, c, slots);
  }

  lemma TrashVersions(a: Db, s: SeriesId, boundary: Time, x: ActionId, now: Time)
    requires s in a.series
    ensures Versioned(a, Trashed(a, s, boundary, x, now))
  {
    hide Trashed, D.InPortion, D.Standing;
    D.PortionTaken(a, s, boundary, x, now);
  }

  lemma RestoreVersions(a: Db, x: ActionId, v: int, selected: Option<Selected>, now: Time)
    requires TrashInv(a) && RestoreAction(a, x, v, selected, now).Success?
    ensures Versioned(a, RestoreAction(a, x, v, selected, now).value)
  {
    hide RestoreAction, TrashInv, D.RestoreAccepted, D.IsMember;
    D.RestoreMeans(a, x, v, selected, now);
  }

  lemma PurgeVersions(a: Db, b: Db, picked: set<NoteId>, order: seq<NoteId>, cutoff: Time, now: Time)
    requires Elements(order) == M.Targets(a, picked, cutoff) && M.Purge(a, picked, order, cutoff, now) == Some(b)
    ensures Versioned(a, b)
  {
    hide M.EmptiedSeries, M.PurgedExceptions, M.Candidates, M.PurgeEvents;
  }

  lemma TagVersions(a: Db, tag: TagId, order: seq<SeriesId>)
    requires tag in a.tags && Elements(order) == T.TaggedSeries(a, tag)
    ensures Versioned(a, T.DeletedTag(a, tag, order))
  {
    hide T.SeriesEvents, T.Tagged, T.TaggedSeries;
  }

  lemma JobTxVersions(a: Db, b: Db, tx: Tx, now: Time)
    requires Commits(a, b, tx, now) && (tx.ClaimTx? || tx.AuthorizeTx? || tx.FinishTx? || tx.ClassifyTx?)
    ensures Versioned(a, b)
  {
    hide Versioned, ClaimBatch, Classify, Authorize, RecordOutcome, ClaimableKeys, R.StaleKeys;
    match tx
    case ClaimTx(t, tokens) => SameTables(a, t, tokens); SameRows(a, b);
    case AuthorizeTx(task, grace, recipient) =>
      AuthorizeTables(a, task.delivery, task.token, now, grace, recipient);
      SameRows(a, b);
    case FinishTx(dk, o) => FinishTables(a, dk, o, now); SameRows(a, b);
    case ClassifyTx(rows, olderThan) => ClassifyTables(a, rows, now); SameRows(a, b);
  }

  /** Every transaction bumps the version of each note and each series it writes. */
  lemma TxVersions(a: Db, b: Db, tx: Tx, now: Time)
    requires StoreInv(a) && Commits(a, b, tx, now)
    ensures Versioned(a, b)
  {
    hide ReminderInv, SlotInv, TrashInv, LineageInv, RedactionInv, Save, Trashed, Restored, RestoreAction,
         C.CreatedSeries, S.AfterSplit, S.SplitError, C.SeriesError, S.Acceptable, Portion, SeriesKeys, C.Fills,
         CreateNote, UpdateNote, DeleteNote, RestoreNote, Keeps, M.Purge, M.Targets, M.ExpiredNotes, T.DeletedTag,
         Versioned, ClaimBatch, Classify, Authorize, RecordOutcome, ClaimableKeys, R.StaleKeys;
    match tx
    case CreateSeriesTx(e, s, f, slots) =>
      SeriesCreated(a, b, tx, now);
      CreatedVersions(a, s, f, slots, now);
    case SplitTx(e, s, r, successor, slots) =>
      SplitFacts(a, b, tx, now);
      SplitVersions(a, e, CutOf(tx, now), slots);
    case TrashTx(s, _, _, boundary, x) => TrashVersions(a, s, boundary, x, now);
    case RestoreActionTx(x, v, selected) => RestoreVersions(a, x, v, selected, now);
    case DeleteTagTx(tag, order) => TagVersions(a, tag, order);
    case PurgeTx(picked, order, cutoff) => PurgeVersions(a, b, picked, order, cutoff, now);
    case CreateNoteTx(_, _) => NoteTxVersions(a, b, tx, now);
    case UpdateNoteTx(_, _, _, _) => NoteTxVersions(a, b, tx, now);
    case DeleteNoteTx(_, _, _) => NoteTxVersions(a, b, tx, now);
    case RestoreNoteTx(_, _, _) => NoteTxVersions(a, b, tx, now);
    case _ => JobTxVersions(a, b, tx, now);
  }

  // ---------- what requests name ----------

  /** The note a request rewrites, and the version of it the request was made for. */
  function NoteNamed(a: Db, tx: Tx): Option<(NoteId, int)> {
    match tx
    case UpdateNoteTx(id, v, _, _) => Some((id, v))
    case DeleteNoteTx(id, v, _) => if id in a.notes && a.notes[id].deletedAt.None? then Some((id, v)) else None
    case RestoreNoteTx(id, v, _) => Some((id, v))
    case _ => None
  }

  function SeriesOf(a: Db, id: NoteId, seriesVersion: Option<int>): Option<(SeriesId, int)> {
    if id in a.notes && N.Recurs(a, id) && seriesVersion.Some?
    then Some((a.notes[id].seriesId.value, seriesVersion.value)) else None
  }

  /** The series a request writes under, and the version of it the request was made for. */
  function SeriesNamed(a: Db, tx: Tx): Option<(SeriesId, int)> {
    match tx
    case UpdateNoteTx(id, _, sv, _) => SeriesOf(a, id, sv)
    case DeleteNoteTx(id, _, sv) => SeriesOf(a, id, sv)
    case RestoreNoteTx(id, _, sv) => SeriesOf(a, id, sv)
    case SplitTx(_, s, r, _, _) => Some((s, r.seriesVersion))
    case TrashTx(s, v, _, _, _) => Some((s, v))
    case RestoreActionTx(x, v, _) => if x in a.actions then Some((a.actions[x].series, v)) else None
    case _ => None
  }

  lemma NoteNamesCurrent(a: Db, b: Db, tx: Tx, now: Time)
    requires Commits(a, b, tx, now) && NoteNamed(a, tx).Some?
    ensures var (n, v) := NoteNamed(a, tx).value;
            n in a.notes && a.notes[n].version == v && n in b.notes && b.notes[n].version == v + 1
  {
    hide CreateNote, UpdateNote, DeleteNote, RestoreNote, Strip, N.Current, N.SeriesBumped, TagsOf, EnabledOffsets,
         N.OthersAsTheyWere, N.ExceptionWritten;
    match tx
    case UpdateNoteTx(id, v, sv, f) => N.UpdateMeans(a, id, v, sv, f, now); NamesKnown(a, id, v, sv);
    case DeleteNoteTx(id, v, sv) => N.DeleteMeans(a, id, v, sv, now); NamesKnown(a, id, v, sv);
    case RestoreNoteTx(id, v, sv) => N.RestoreMeans(a, id, v, sv, now); NamesKnown(a, id, v, sv);
    case _ =>
  }

  lemma SeriesNamesCurrent(a: Db, b: Db, tx: Tx, now: Time)
    requires StoreInv(a) && Commits(a, b, tx, now) && SeriesNamed(a, tx).Some?
    ensures var (s, v) := SeriesNamed(a, tx).value;
            s in a.series && a.series[s].version == v && s in b.series && b.series[s].version == v + 1
  {
    hide ReminderInv, SlotInv, TrashInv, LineageInv, RedactionInv, CreateNote, UpdateNote, DeleteNote, RestoreNote,
         Strip, N.Current, N.SavedAs, TagsOf, EnabledOffsets, Trashed, RestoreAction, S.AfterSplit, S.SplitError,
         S.Acceptable, Portion, SeriesKeys, D.InPortion, D.Standing, D.IsMember, Q.Splittable, C.Generated;
    match tx
    case UpdateNoteTx(id, v, sv, f) => N.UpdateMeans(a, id, v, sv, f, now); NamesKnown(a, id, v, sv);
    case DeleteNoteTx(id, v, sv) => N.DeleteMeans(a, id, v, sv, now); NamesKnown(a, id, v, sv);
    case RestoreNoteTx(id, v, sv) => N.RestoreMeans(a, id, v, sv, now); NamesKnown(a, id, v, sv);
    case SplitTx(e, s, r, _, slots) => SplitNames(a, b, tx, now);
    case TrashTx(s, _, _, boundary, x) => D.PortionTaken(a, s, boundary, x, now);
    case RestoreActionTx(x, v, selected) => D.RestoreMeans(a, x, v, selected, now);
    case _ =>
  }

  lemma SplitNames(a: Db, b: Db, tx: Tx, now: Time)
    requires Commits(a, b, tx, now) && tx.SplitTx?
    ensures tx.s in a.series && a.series[tx.s].version == tx.request.seriesVersion
    ensures tx.s in b.series && b.series[tx.s].version == tx.request.seriesVersion + 1
  {
    hide S.AfterSplit, S.Acceptable, Strip, C.Generated, S.Collides, S.Affected, S.AtKey, Q.SeriesAsAsked,
         Q.TemplateAsAsked;
    SplitFacts(a, b, tx, now);
    KnownSeries(a, tx.e, CutOf(tx, now), tx.slots);
    Q.SplitMeans(a, tx.e, CutOf(tx, now), tx.slots);
  }

  lemma KnownSeries(a: Db, e: C.Settings, c: S.Cut, slots: map<NoteId, Time>)
    requires S.Acceptable(a, e, c, slots)
    ensures c.s in a.series
  {
    hide S.Collides, S.AtKey, S.Affected, C.Fills;
  }

  // ---------- over runs ----------

  lemma {:induction false} VersionsGrow(run: seq<World>, steps: seq<Step>, i: nat, j: nat)
    requires Run(run, steps) && i <= j < |run|
    ensures forall n :: n in run[i].db.notes ==>
              n in run[j].db.notes
              && (run[j].db.notes[n] == run[i].db.notes[n] || run[j].db.notes[n].version > run[i].db.notes[n].version)
    ensures forall s :: s in run[i].db.series ==>
              s in run[j].db.series
              && (run[j].db.series[s] == run[i].db.series[s]
                  || run[j].db.series[s].version > run[i].db.series[s].version)
    decreases j
  {
    hide StoreInv, HistoryInv, WorkerInv, Next, Commits, TxOf;
    if i < j {
      VersionsGrow(run, steps, i, j - 1);
      Safety(run, steps, j - 1);
      assert Next(run[j - 1], run[j], steps[j - 1]);
      StepCommits(run[j - 1], run[j], steps[j - 1]);
      match TxOf(run[j - 1], steps[j - 1])
      case Some(p) => TxVersions(run[j - 1].db, run[j].db, p.0, p.1);
      case None =>
    }
  }

  lemma Handled(run: seq<World>, steps: seq<Step>, i: nat)
    requires Run(run, steps) && i < |steps| && steps[i].Transact?
    ensures |run| == |steps| + 1
    ensures Commits(run[i].db, run[i + 1].db, steps[i].tx, steps[i].now) && StoreInv(run[i].db)
  {
    hide StoreInv, Commits;
    Safety(run, steps, i);
    assert Next(run[i], run[i + 1], steps[i]);
  }

  /** Two accepted requests that rewrite a note were made for different versions of it, the later
      one for the later version: no edit is ever lost. */
  lemma NoLostUpdate(run: seq<World>, steps: seq<Step>, i: nat, j: nat)
    requires Run(run, steps) && i < j < |steps| && steps[i].Transact? && steps[j].Transact?
    requires NoteNamed(run[i].db, steps[i].tx).Some? && NoteNamed(run[j].db, steps[j].tx).Some?
    requires NoteNamed(run[i].db, steps[i].tx).value.0 == NoteNamed(run[j].db, steps[j].tx).value.0
    ensures NoteNamed(run[i].db, steps[i].tx).value.1 < NoteNamed(run[j].db, steps[j].tx).value.1
  {
    hide StoreInv, Commits, NoteNamed, Run;
    Handled(run, steps, i);
    Handled(run, steps, j);
    NoteNamesCurrent(run[i].db, run[i + 1].db, steps[i].tx, steps[i].now);
    NoteNamesCurrent(run[j].db, run[j + 1].db, steps[j].tx, steps[j].now);
    VersionsGrow(run, steps, i + 1, j);
  }

  /** The same for every request that writes under a series: an edit, delete or restore of one of
      its occurrences, a split, a portion trashed, an action restored. */
  lemma NoLostSeriesUpdate(run: seq<World>, steps: seq<Step>, i: nat, j: nat)
    requires Run(run, steps) && i < j < |steps| && steps[i].Transact? && steps[j].Transact?
    requires SeriesNamed(run[i].db, steps[i].tx).Some? && SeriesNamed(run[j].db, steps[j].tx).Some?
    requires SeriesNamed(run[i].db, steps[i].tx).value.0 == SeriesNamed(run[j].db, steps[j].tx).value.0
    ensures SeriesNamed(run[i].db, steps[i].tx).value.1 < SeriesNamed(run[j].db, steps[j].tx).value.1
  {
    hide StoreInv, Commits, SeriesNamed, Run;
    Handled(run, steps, i);
    Handled(run, steps, j);
    SeriesNamesCurrent(run[i].db, run[i + 1].db, steps[i].tx, steps[i].now);
    SeriesNamesCurrent(run[j].db, run[j + 1].db, steps[j].tx, steps[j].now);
    VersionsGrow(run, steps, i + 1, j);
  }
}

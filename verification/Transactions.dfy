/** Every transaction of the system as one relation between stores, and what all of them keep. */
module Transactions {
  import opened Prelude
  import opened Storage
  import opened Reconciliation
  import opened Progress
  import opened Invariants
  import opened Lineage
  import opened Store
  import opened Api
  import opened NoteHandlers
  import opened TrashActions
  import opened Reminders
  import C = SeriesCreation
  import S = Split
  import M = Maintenance
  import T = Tags
  import R = ReminderJobs

  datatype Tx =
    | CreateNoteTx(id: NoteId, fields: NoteFields)
    | UpdateNoteTx(id: NoteId, version: int, seriesVersion: Option<int>, fields: NoteFields)
    | DeleteNoteTx(id: NoteId, version: int, seriesVersion: Option<int>)
    | RestoreNoteTx(id: NoteId, version: int, seriesVersion: Option<int>)
    | CreateSeriesTx(e: C.Settings, s: SeriesId, template: C.SeriesFields, slots: map<NoteId, Time>)
    | SplitTx(e: C.Settings, s: SeriesId, request: S.SplitRequest, successor: SeriesId, slots: map<NoteId, Time>)
    | TrashTx(s: SeriesId, version: int, requested: Option<Time>, boundary: Time, action: ActionId)
    | RestoreActionTx(action: ActionId, version: int, selected: Option<Selected>)
    | DeleteTagTx(tag: TagId, order: seq<SeriesId>)
    | PurgeTx(picked: set<NoteId>, purged: seq<NoteId>, cutoff: Time)
    | ClaimTx(terms: Terms, tokens: map<DeliveryKey, Token>)
    | AuthorizeTx(task: R.Task, grace: Time, recipient: string)
    | FinishTx(delivery: DeliveryKey, outcome: Outcome)
    | ClassifyTx(rows: seq<DeliveryKey>, olderThan: Time)

  function CutOf(tx: Tx, now: Time): S.Cut
    requires tx.SplitTx? && C.WellTyped(tx.request.fields) && C.Generated(tx.e, tx.request.fields).Some?
  {
    S.Cut(tx.s, tx.successor, tx.request.key, tx.request.fields, Elements(C.Generated(tx.e, tx.request.fields).value),
          now)
  }

  /** The transaction commits, at `now`, and takes store `a` to store `b`. */
  ghost predicate Commits(a: Db, b: Db, tx: Tx, now: Time) {
    match tx
    case CreateNoteTx(id, f) => id !in a.notes && CreateNote(a, id, f, now) == Success(b)
    case UpdateNoteTx(id, v, sv, f) => UpdateNote(a, id, v, sv, f, now) == Success(b)
    case DeleteNoteTx(id, v, sv) => DeleteNote(a, id, v, sv, now) == Success(b)
    case RestoreNoteTx(id, v, sv) =>
      id in a.notes && a.notes[id].action.None? && RestoreNote(a, id, v, sv, now) == Success(b)
    case CreateSeriesTx(e, s, f, slots) =>
      C.WellTyped(f) && s !in a.series && C.CreateOutcome(a, e, f, now, s, slots, Success(()), b)
    case SplitTx(e, s, r, successor, slots) =>
      C.WellTyped(r.fields) && S.SplitOutcome(a, e, s, r, now, successor, slots, Success(()), b)
    case TrashTx(s, v, requested, boundary, x) =>
      && s in a.series && a.series[s].purgedAt.None? && a.series[s].version == v && x !in a.actions
      && IsBoundary(a, s, requested, boundary) && BoundaryOutcome(a, s, boundary, x, now, Success(()), b)
    case RestoreActionTx(x, v, selected) => RestoreAction(a, x, v, selected, now) == Success(b)
    case DeleteTagTx(tag, order) =>
      tag in a.tags && Elements(order) == T.TaggedSeries(a, tag) && b == T.DeletedTag(a, tag, order)
    case PurgeTx(picked, order, cutoff) =>
      && picked <= M.ExpiredNotes(a, cutoff) && Elements(order) == M.Targets(a, picked, cutoff)
      && M.Purge(a, picked, order, cutoff, now) == Some(b)
    case ClaimTx(t, tokens) => t.now == now && tokens.Keys <= ClaimableKeys(a, now) && b == ClaimBatch(a, t, tokens)
    case AuthorizeTx(task, grace, recipient) => b == Authorize(a, task.delivery, task.token, now, grace, recipient)
    case FinishTx(dk, o) =>
      && dk in a.deliveries && (a.deliveries[dk].state.AttemptStarted? ==> dk in a.notifications)
      && b == RecordOutcome(a, dk, o, now)
    case ClassifyTx(rows, olderThan) =>
      Distinct(rows) && Elements(rows) <= R.StaleKeys(a, now, olderThan) && b == Classify(a, rows, now)
  }

  // ---------- the jobs of the delivery protocol ----------

  /** A job writes deliveries and notifications only, and none of a purged note. */
  ghost predicate JobOnly(a: Db, b: Db) {
    && b == a.(deliveries := b.deliveries, notifications := b.notifications, outbox := b.outbox)
    && b.deliveries.Keys == a.deliveries.Keys
    && (forall dk :: dk in b.deliveries && Purged(a, dk.rule.note) ==> b.deliveries[dk] == a.deliveries[dk])
    && (forall dk :: dk in b.notifications && Purged(a, dk.rule.note) ==>
          dk in a.notifications && b.notifications[dk] == a.notifications[dk])
  }

  lemma JobFrozen(a: Db, b: Db)
    requires JobOnly(a, b)
    ensures NotesFrozen(a, b) && SeriesFrozen(a, b)
  {
    forall n | n in b.notes && (Purged(a, n) || Purged(b, n)) ensures SameNote(a, b, n) {
    }
  }

  lemma JobKeeps(a: Db, b: Db)
    requires StoreInv(a) && JobOnly(a, b) && ReminderInv(b) && Advances(a, b)
    ensures Keeps(a, b)
  {
    hide ReminderInv, LineageInv, NotesFrozen, SeriesFrozen;
    JobFrozen(a, b);
    FrozenNotes(a, b);
    FrozenSeries(a, b);
    NothingPointsElsewhere(a);
    LeavingActionsKeepsTrash(a, b);
    forall n | n in b.notes ensures Slotted(b, n) { assert Slotted(a, n); }
  }

  /** A purged note has nothing that a job could pick up. */
  lemma PurgedIsIdle(a: Db, dk: DeliveryKey)
    requires ReminderInv(a) && RedactionInv(a) && dk in a.deliveries && Purged(a, dk.rule.note)
    ensures !Open(a.deliveries[dk]) && !a.deliveries[dk].state.AttemptStarted?
  {
  }

  lemma ClaimIsJob(a: Db, t: Terms, tokens: map<DeliveryKey, Token>)
    requires ReminderInv(a) && RedactionInv(a) && tokens.Keys <= ClaimableKeys(a, t.now)
    ensures JobOnly(a, ClaimBatch(a, t, tokens))
  {
    hide ReminderInv, RedactionInv, Scanned;
    forall dk | dk in a.deliveries && Purged(a, dk.rule.note) ensures dk !in tokens {
      PurgedIsIdle(a, dk);
    }
  }

  lemma PutIsJob(a: Db, dk: DeliveryKey, d: Delivery)
    requires dk in a.deliveries && !Purged(a, dk.rule.note)
    ensures JobOnly(a, PutDelivery(a, dk, d))
  {
  }

  lemma AuthorizedIsJob(a: Db, dk: DeliveryKey, now: Time, recipient: string)
    requires dk in a.deliveries && dk.rule.note in a.notes && !Purged(a, dk.rule.note)
    ensures JobOnly(a, AuthorizedDb(a, dk, now, recipient))
  {
  }

  lemma AuthorizeIsJob(a: Db, dk: DeliveryKey, token: Token, now: Time, grace: Time, recipient: string)
    requires ReminderInv(a) && RedactionInv(a)
    ensures JobOnly(a, Authorize(a, dk, token, now, grace, recipient))
  {
    hide ReminderInv, RedactionInv, Authorization, Released, JobOnly, AuthorizedDb, PutDelivery;
    var verdict := Judge(a, dk, token, now, grace);
    if verdict.Ignored? { Nothing(a); }
    else {
      if Purged(a, dk.rule.note) { PurgedIsIdle(a, dk); }
      if verdict.Authorized? { AuthorizedIsJob(a, dk, now, recipient); }
      else if verdict.Withdrawn? { PutIsJob(a, dk, Released(a.deliveries[dk], Cancelled, Some(now))); }
      else if verdict.Early? { PutIsJob(a, dk, Released(a.deliveries[dk], Pending, None)); }
      else { PutIsJob(a, dk, Released(a.deliveries[dk], Missed, Some(now))); }
    }
  }

  lemma Nothing(a: Db)
    ensures JobOnly(a, a)
  {
  }

  lemma FinishIsJob(a: Db, dk: DeliveryKey, o: Outcome, now: Time)
    requires ReminderInv(a) && RedactionInv(a) && dk in a.deliveries
    requires a.deliveries[dk].state.AttemptStarted? ==> dk in a.notifications
    ensures JobOnly(a, RecordOutcome(a, dk, o, now))
  {
    hide ReminderInv, RedactionInv, Reminders.Finish, MarkFailure;
    if Purged(a, dk.rule.note) { PurgedIsIdle(a, dk); }
  }

  lemma ClassifyIsJob(a: Db, rows: seq<DeliveryKey>, now: Time)
    requires ReminderInv(a) && RedactionInv(a)
    requires forall dk :: dk in rows ==> dk in a.deliveries && a.deliveries[dk].state.AttemptStarted?
    ensures JobOnly(a, Classify(a, rows, now))
  {
    hide ReminderInv, RedactionInv, Abandon, MarkFailure;
    forall dk | dk in a.deliveries && Purged(a, dk.rule.note) ensures dk !in rows {
      PurgedIsIdle(a, dk);
    }
  }

  lemma ClaimStep(a: Db, t: Terms, tokens: map<DeliveryKey, Token>)
    requires StoreInv(a) && tokens.Keys <= ClaimableKeys(a, t.now)
    ensures Keeps(a, ClaimBatch(a, t, tokens))
  {
    hide ReminderInv, SlotInv, TrashInv, LineageInv, RedactionInv, JobOnly, Advances, ClaimBatch;
    ClaimIsJob(a, t, tokens);
    ClaimKeepsInv(a, t, tokens);
    JobKeeps(a, ClaimBatch(a, t, tokens));
  }

  lemma AuthorizeStep(a: Db, dk: DeliveryKey, token: Token, now: Time, grace: Time, recipient: string)
    requires StoreInv(a)
    ensures Keeps(a, Authorize(a, dk, token, now, grace, recipient))
  {
    hide ReminderInv, SlotInv, TrashInv, LineageInv, RedactionInv, JobOnly, Advances, Authorize;
    AuthorizeIsJob(a, dk, token, now, grace, recipient);
    AuthorizeKeepsInv(a, dk, token, now, grace, recipient);
    JobKeeps(a, Authorize(a, dk, token, now, grace, recipient));
  }

  lemma FinishStep(a: Db, dk: DeliveryKey, o: Outcome, now: Time)
    requires StoreInv(a) && dk in a.deliveries
    requires a.deliveries[dk].state.AttemptStarted? ==> dk in a.notifications
    ensures Keeps(a, RecordOutcome(a, dk, o, now))
  {
    hide ReminderInv, SlotInv, TrashInv, LineageInv, RedactionInv, JobOnly, Advances, RecordOutcome;
    FinishIsJob(a, dk, o, now);
    RecordKeepsInv(a, dk, o, now);
    JobKeeps(a, RecordOutcome(a, dk, o, now));
  }

  lemma StaleRows(a: Db, rows: seq<DeliveryKey>, now: Time, olderThan: Time)
    requires Elements(rows) <= R.StaleKeys(a, now, olderThan)
    ensures forall dk :: dk in rows ==> dk in a.deliveries && a.deliveries[dk].state.AttemptStarted?
  {
    forall dk | dk in rows ensures dk in a.deliveries && a.deliveries[dk].state.AttemptStarted? {
      assert dk in Elements(rows);
    }
  }

  lemma ClassifyStep(a: Db, rows: seq<DeliveryKey>, now: Time, olderThan: Time)
    requires StoreInv(a) && Elements(rows) <= R.StaleKeys(a, now, olderThan)
    ensures Keeps(a, Classify(a, rows, now))
  {
    StaleRows(a, rows, now, olderThan);
    hide ReminderInv, SlotInv, TrashInv, LineageInv, RedactionInv, JobOnly, Advances, Classify;
    ClassifyIsJob(a, rows, now);
    ClassifyKeepsInv(a, rows, now);
    JobKeeps(a, Classify(a, rows, now));
  }

  // ---------- every transaction ----------

  lemma SeriesCreated(a: Db, b: Db, tx: Tx, now: Time)
    requires StoreInv(a) && tx.CreateSeriesTx? && Commits(a, b, tx, now)
    ensures Keeps(a, b) && b == C.CreatedSeries(a, tx.s, tx.template, tx.slots, now)
    ensures tx.slots.Keys !! a.notes.Keys && tx.s !in a.series
  {
    hide StoreInv, Advances, C.CreatedSeries, Strip, C.Generated;
    C.CreateKeeps(a, tx.s, tx.template, tx.slots, now, Elements(C.Generated(tx.e, tx.template).value));
  }

  lemma SplitFacts(a: Db, b: Db, tx: Tx, now: Time)
    requires tx.SplitTx? && Commits(a, b, tx, now)
    ensures C.WellTyped(tx.request.fields) && C.Generated(tx.e, tx.request.fields).Some?
    ensures S.Acceptable(a, tx.e, CutOf(tx, now), tx.slots) && b == S.AfterSplit(a, tx.e, CutOf(tx, now), tx.slots)
  {
    hide S.AfterSplit, S.Acceptable, Strip, C.Generated, S.Collides, S.Affected, S.AtKey;
  }

  /** Every transaction keeps the store's invariant and undoes nothing that must stand. */
  lemma TxKeeps(a: Db, b: Db, tx: Tx, now: Time)
    requires StoreInv(a) && Commits(a, b, tx, now)
    ensures Keeps(a, b)
  {
    hide StoreInv, Advances, Save, Trashed, Restored, RestoreError, C.CreatedSeries, S.AfterSplit, M.PurgeTo,
         ClaimBatch, Authorize, RecordOutcome, Classify, S.SplitError, C.SeriesError, S.Acceptable, Portion,
         T.DeletedTag, SeriesKeys, C.Fills, M.Targets, M.ExpiredNotes, ClaimableKeys, R.StaleKeys;
    match tx
    case CreateNoteTx(id, f) => CreateKeeps(a, id, f, now);
    case UpdateNoteTx(id, v, sv, f) => UpdateKeeps(a, id, v, sv, f, now);
    case DeleteNoteTx(id, v, sv) => DeleteKeeps(a, id, v, sv, now);
    case RestoreNoteTx(id, v, sv) => RestoreKeeps(a, id, v, sv, now);
    case CreateSeriesTx(e, s, f, slots) => SeriesCreated(a, b, tx, now);
    case SplitTx(e, s, r, successor, slots) =>
      SplitFacts(a, b, tx, now);
      S.SplitKeeps(a, e, CutOf(tx, now), slots);
    case TrashTx(s, _, _, boundary, x) => TrashKeeps(a, s, boundary, x, now);
    case RestoreActionTx(x, v, selected) => RestoreActionKeeps(a, x, v, selected, now);
    case DeleteTagTx(tag, order) => T.DeleteTagKeeps(a, tag, order);
    case PurgeTx(picked, order, cutoff) => M.PurgeKeeps(a, picked, order, cutoff, now);
    case ClaimTx(t, tokens) => ClaimStep(a, t, tokens);
    case AuthorizeTx(task, grace, recipient) => AuthorizeStep(a, task.delivery, task.token, now, grace, recipient);
    case FinishTx(dk, o) => FinishStep(a, dk, o, now);
    case ClassifyTx(rows, olderThan) => ClassifyStep(a, rows, now, olderThan);
  }
}

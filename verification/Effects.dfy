/** What a transaction does not do: authorize or finish deliveries behind the protocol's back,
    move occurrences between series, or act on a deadline before its time. */
module Effects {
  import opened Prelude
  import opened Storage
  import opened Reconciliation
  import opened Invariants
  import opened Lineage
  import opened Store
  import opened Api
  import opened Notes
  import opened NoteHandlers
  import opened TrashActions
  import opened Reminders
  import opened Segments
  import opened Transactions
  import C = SeriesCreation
  import S = Split
  import M = Maintenance
  import T = Tags
  import R = ReminderJobs

  // ---------- the transactions that rewrite notes and reconcile them ----------

  ghost predicate EditBy(a: Db, b: Db, notes: map<NoteId, Note>, p: Plan, now: Time) {
    && PlanCovers(a, notes, p) && PlanNotesOnly(a, notes, p)
    && var r := Reconcile(a.(notes := notes), p, now);
       b.notes == r.notes && b.rules == r.rules && b.deliveries == r.deliveries
  }

  ghost predicate IsEdit(a: Db, b: Db, now: Time) {
    exists notes, p :: EditBy(a, b, notes, p, now)
  }

  lemma NoEdit(a: Db, b: Db, now: Time)
    requires b.notes == a.notes && b.rules == a.rules && b.deliveries == a.deliveries
    ensures IsEdit(a, b, now)
  {
    Unchanged(a, NO_PLAN, now);
    assert a.(notes := a.notes) == a;
    assert EditBy(a, b, a.notes, NO_PLAN, now);
  }

  lemma SaveIsEdit(a: Db, locked: Db, id: NoteId, e: Edit, now: Time)
    requires Editable(a, id, e) && locked == a.(series := locked.series)
    ensures IsEdit(a, Save(locked, id, e, now), now)
  {
    hide Reconcile, WithTags;
    var notes, p := a.notes[id := e.row], OneNote(id, e.offsets, e.moved);
    SaveCovers(a, id, e);
    SameInputs(a.(notes := notes), Written(locked, id, e), p, now);
    assert EditBy(a, Save(locked, id, e, now), notes, p, now);
  }

  lemma RelabelIsEdit(a: Db, s: SeriesId, notes: map<NoteId, Note>, ids: set<NoteId>,
                      actions: map<ActionId, Action>, members: set<Membership>, now: Time)
    requires RelabelsOnly(a, notes, ids) && s in a.series
    ensures IsEdit(a, Relabelled(a, s, notes, ids, actions, members, now), now)
  {
    hide Reconcile, EnabledOffsets;
    RelabelCovers(a, notes, ids);
    assert EditBy(a, Relabelled(a, s, notes, ids, actions, members, now), notes, KeepOffsets(a, ids), now);
  }

  lemma CreatedIsEdit(a: Db, s: SeriesId, f: C.SeriesFields, slots: map<NoteId, Time>, now: Time)
    requires C.WellTyped(f) && slots.Keys !! a.notes.Keys
    ensures IsEdit(a, C.CreatedSeries(a, s, f, slots, now), now)
  {
    hide Reconcile, Strip;
    var b := C.NewBatch(f, s, slots);
    C.CreatedCovers(a, s, f, slots);
    assert EditBy(a, C.CreatedSeries(a, s, f, slots, now), a.notes + b.rows, b.plan, now);
  }

  lemma SplitIsEdit(a: Db, e: C.Settings, c: S.Cut, slots: map<NoteId, Time>)
    requires S.Acceptable(a, e, c, slots)
    ensures IsEdit(a, S.AfterSplit(a, e, c, slots), c.now)
  {
    hide Reconcile, Strip, S.CutBatch, S.TagsAfter, S.ExceptionsLeft, S.Collides, S.Affected;
    var b := S.CutBatch(a, c, slots);
    S.CutRows(a, c, slots);
    S.CutCovers(a, c, slots);
    SameInputs(a.(notes := a.notes + b.rows), S.WithSuccessor(a, e, c).(notes := a.notes + b.rows), b.plan, c.now);
    assert EditBy(a, S.AfterSplit(a, e, c, slots), a.notes + b.rows, b.plan, c.now);
  }

  lemma TrashIsEdit(a: Db, s: SeriesId, boundary: Time, x: ActionId, now: Time)
    requires s in a.series
    ensures IsEdit(a, Trashed(a, s, boundary, x, now), now)
  {
    hide Reconcile, EnabledOffsets;
    var ids := Portion(a, s, boundary);
    RelabelIsEdit(a, s, TrashedNotes(a, ids, x, now), ids,
                  a.actions[x := Action(s, boundary, now, true)], a.members + Enrolments(x, ids), now);
  }

  lemma RestoreIsEdit(a: Db, x: ActionId, v: int, selected: Option<Selected>, now: Time)
    requires StoreInv(a) && RestoreAction(a, x, v, selected, now).Success?
    ensures IsEdit(a, RestoreAction(a, x, v, selected, now).value, now)
  {
    hide ReminderInv, SlotInv, LineageInv, RedactionInv, Reconcile, EnabledOffsets;
    RestorableIsOpen(a, x, v, selected, now);
    var ids := MembersOf(a, x);
    forall n | n in ids ensures SameOccurrence(a.notes[n], RestoreRow(a.notes[n])) { assert Pinned(a, x, n); }
    RelabelIsEdit(a, a.actions[x].series, RestoredNotes(a, ids), ids, a.actions, a.members, now);
  }

  predicate EditTx(tx: Tx) {
    tx.CreateNoteTx? || tx.UpdateNoteTx? || tx.DeleteNoteTx? || tx.RestoreNoteTx? || tx.CreateSeriesTx? || tx.SplitTx?
    || tx.TrashTx? || tx.RestoreActionTx?
  }

  lemma NoteTxIsEdit(a: Db, b: Db, tx: Tx, now: Time)
    requires StoreInv(a) && Commits(a, b, tx, now)
    requires tx.CreateNoteTx? || tx.UpdateNoteTx? || tx.DeleteNoteTx? || tx.RestoreNoteTx?
    ensures IsEdit(a, b, now)
  {
    hide StoreInv, Save, Strip, IsEdit, LockSeries, Keeps;
    if tx.CreateNoteTx? {
      var f := tx.fields;
      var row := Note(Strip(f.title), f.body, f.startsAt, f.active, None, None, None, None, None, None, None, 1);
      SaveIsEdit(a, a, tx.id, Edit(row, Some(f.tags), f.offsets, false, None, NoteCreated), now);
    } else {
      var n := a.notes[tx.id];
      LockKeeps(a, tx.id, tx.seriesVersion);
      var locked := LockSeries(a, n, tx.seriesVersion).value;
      if tx.UpdateNoteTx? {
        var f := tx.fields;
        NotInAction(a, tx.id);
        var row := n.(title := Strip(f.title), body := f.body, startsAt := f.startsAt, active := f.active,
                      version := n.version + 1);
        SaveIsEdit(a, locked, tx.id,
                   Edit(row, Some(f.tags), f.offsets, n.startsAt != f.startsAt, None, NoteUpdated), now);
      } else if tx.RestoreNoteTx? {
        SaveIsEdit(a, locked, tx.id,
                   Edit(n.(deletedAt := None, version := n.version + 1), None, EnabledOffsets(a, tx.id), false,
                        Some(false), NoteRestored), now);
      } else if n.deletedAt.Some? { NoEdit(a, b, now); }
      else {
        NotInAction(a, tx.id);
        SaveIsEdit(a, locked, tx.id,
                   Edit(n.(deletedAt := Some(now), version := n.version + 1), None, EnabledOffsets(a, tx.id), false,
                        Some(true), NoteDeleted), now);
      }
    }
  }

  lemma TxIsEdit(a: Db, b: Db, tx: Tx, now: Time)
    requires StoreInv(a) && Commits(a, b, tx, now) && EditTx(tx)
    ensures IsEdit(a, b, now)
  {
    hide StoreInv, Save, Trashed, Restored, RestoreError, C.CreatedSeries, S.AfterSplit, S.SplitError, C.SeriesError,
         S.Acceptable, Portion, SeriesKeys, C.Fills, IsEdit, CreateNote, UpdateNote, DeleteNote, RestoreNote, Keeps;
    match tx
    case CreateSeriesTx(e, s, f, slots) =>
      SeriesCreated(a, b, tx, now);
      CreatedIsEdit(a, s, f, slots, now);
    case SplitTx(e, s, r, successor, slots) =>
      SplitFacts(a, b, tx, now);
      SplitIsEdit(a, e, CutOf(tx, now), slots);
    case TrashTx(s, _, _, boundary, x) => TrashIsEdit(a, s, boundary, x, now);
    case RestoreActionTx(x, v, selected) => RestoreIsEdit(a, x, v, selected, now);
    case _ => NoteTxIsEdit(a, b, tx, now);
  }

  // ---------- attempts ----------

  /** No delivery was authorized or finished in between. */
  ghost predicate SameAttempts(a: Db, b: Db) {
    forall dk :: dk in b.deliveries && Attempted(b.deliveries[dk]) ==>
      dk in a.deliveries && a.deliveries[dk].state == b.deliveries[dk].state
  }

  lemma AttemptRow(d: Delivery, n: Note, offset: int, now: Time)
    ensures Attempted(Refresh(d, n, offset, now)) ==> Refresh(d, n, offset, now) == d
    ensures Attempted(CancelOpen(d, now)) ==> CancelOpen(d, now) == d
    ensures !Attempted(NewDelivery(n, offset, now))
  {
  }

  lemma EditAttempts(a: Db, b: Db, now: Time)
    requires IsEdit(a, b, now)
    ensures SameAttempts(a, b)
  {
    hide Reconcile, Refresh, CancelOpen, NewDelivery, PlanNotesOnly;
    var notes, p :| EditBy(a, b, notes, p, now);
    var mid := a.(notes := notes);
    forall dk | dk in b.deliveries && Attempted(b.deliveries[dk])
      ensures dk in a.deliveries && a.deliveries[dk].state == b.deliveries[dk].state
    {
      DeliveryRow(mid, p, now, dk);
      if dk in a.deliveries {
        if dk.rule.note in notes { AttemptRow(a.deliveries[dk], notes[dk.rule.note], dk.rule.offset, now); }
      } else { AttemptRow(b.deliveries[dk], notes[dk.rule.note], dk.rule.offset, now); }
    }
  }

  lemma PurgeAttempts(a: Db, b: Db, picked: set<NoteId>, order: seq<NoteId>, cutoff: Time, now: Time)
    requires Elements(order) == M.Targets(a, picked, cutoff) && M.Purge(a, picked, order, cutoff, now) == Some(b)
    ensures SameAttempts(a, b)
  {
  }

  lemma ClaimAttempts(a: Db, t: Terms, tokens: map<DeliveryKey, Token>)
    ensures SameAttempts(a, ClaimBatch(a, t, tokens))
  {
  }

  /** Only the final authorization starts an attempt, and only finishing or classifying ends
      one: every other transaction leaves attempts alone. */
  lemma TxAttempts(a: Db, b: Db, tx: Tx, now: Time)
    requires StoreInv(a) && Commits(a, b, tx, now)
    requires !tx.AuthorizeTx? && !tx.FinishTx? && !tx.ClassifyTx?
    ensures SameAttempts(a, b)
  {
    hide StoreInv, Save, Trashed, Restored, RestoreError, C.CreatedSeries, S.AfterSplit, S.SplitError, C.SeriesError,
         S.Acceptable, Portion, SeriesKeys, C.Fills, IsEdit, CreateNote, UpdateNote, DeleteNote, RestoreNote, Keeps,
         ClaimBatch, M.PurgeTo, M.Targets, M.ExpiredNotes, ClaimableKeys, T.DeletedTag;
    if EditTx(tx) {
      TxIsEdit(a, b, tx, now);
      EditAttempts(a, b, now);
    } else if tx.PurgeTx? { PurgeAttempts(a, b, tx.picked, tx.purged, tx.cutoff, now); }
    else if tx.ClaimTx? { ClaimAttempts(a, tx.terms, tx.tokens); }
    else { T.DeleteTagKeeps(a, tx.tag, tx.order); }
  }

  // ---------- claims ----------

  /** No delivery was claimed in between: one that is claimed is held by the token it had. */
  ghost predicate SameClaims(a: Db, b: Db) {
    forall dk :: dk in b.deliveries && b.deliveries[dk].state.Claimed? ==>
      dk in a.deliveries && a.deliveries[dk].state.Claimed?
          && a.deliveries[dk].claimToken == b.deliveries[dk].claimToken
  }

  lemma ClaimRowStays(d: Delivery, n: Note, offset: int, now: Time)
    ensures !Refresh(d, n, offset, now).state.Claimed? && !CancelOpen(d, now).state.Claimed?
    ensures !NewDelivery(n, offset, now).state.Claimed?
  {
  }

  lemma EditClaims(a: Db, b: Db, now: Time)
    requires IsEdit(a, b, now)
    ensures SameClaims(a, b)
  {
    hide Reconcile, Refresh, CancelOpen, NewDelivery, PlanNotesOnly;
    var notes, p :| EditBy(a, b, notes, p, now);
    forall dk | dk in b.deliveries && b.deliveries[dk].state.Claimed?
      ensures dk in a.deliveries && a.deliveries[dk] == b.deliveries[dk]
    {
      DeliveryRow(a.(notes := notes), p, now, dk);
      if dk in a.deliveries {
        if dk.rule.note in notes { ClaimRowStays(a.deliveries[dk], notes[dk.rule.note], dk.rule.offset, now); }
      } else { ClaimRowStays(b.deliveries[dk], notes[dk.rule.note], dk.rule.offset, now); }
    }
  }

  lemma PurgeClaims(a: Db, b: Db, picked: set<NoteId>, order: seq<NoteId>, cutoff: Time, now: Time)
    requires Elements(order) == M.Targets(a, picked, cutoff) && M.Purge(a, picked, order, cutoff, now) == Some(b)
    ensures SameClaims(a, b)
  {
  }

  lemma JobClaims(a: Db, b: Db, tx: Tx, now: Time)
    requires Commits(a, b, tx, now) && (tx.AuthorizeTx? || tx.FinishTx? || tx.ClassifyTx?)
    ensures SameClaims(a, b)
  {
    hide Authorize, RecordOutcome, Classify, R.StaleKeys;
    match tx
    case AuthorizeTx(task, grace, recipient) => AuthorizeClaims(a, task.delivery, task.token, now, grace, recipient);
    case FinishTx(dk, o) => FinishClaims(a, dk, o, now);
    case ClassifyTx(rows, olderThan) => ClassifyClaims(a, rows, now);
  }

  lemma AuthorizeClaims(a: Db, dk: DeliveryKey, token: Token, now: Time, grace: Time, recipient: string)
    ensures SameClaims(a, Authorize(a, dk, token, now, grace, recipient))
  {
    hide PutDelivery, AuthorizedDb;
    match Judge(a, dk, token, now, grace)
    case Ignored =>
    case Authorized => AuthorizedRow(a, dk, now, recipient);
    case Withdrawn => PutUnclaimed(a, dk, Released(a.deliveries[dk], Cancelled, Some(now)));
    case Early => PutUnclaimed(a, dk, Released(a.deliveries[dk], Pending, None));
    case TooLate => PutUnclaimed(a, dk, Released(a.deliveries[dk], Missed, Some(now)));
  }

  lemma PutUnclaimed(a: Db, dk: DeliveryKey, d: Delivery)
    requires !d.state.Claimed?
    ensures SameClaims(a, PutDelivery(a, dk, d))
  {
  }

  lemma FinishClaims(a: Db, dk: DeliveryKey, o: Outcome, now: Time)
    requires dk in a.deliveries && (a.deliveries[dk].state.AttemptStarted? ==> dk in a.notifications)
    ensures SameClaims(a, RecordOutcome(a, dk, o, now))
  {
    hide MarkFailure;
  }

  lemma ClassifyClaims(a: Db, rows: seq<DeliveryKey>, now: Time)
    ensures SameClaims(a, Classify(a, rows, now))
  {
  }

  /** Only a scan gives a delivery a claim token. */
  lemma TxClaims(a: Db, b: Db, tx: Tx, now: Time)
    requires StoreInv(a) && Commits(a, b, tx, now) && !tx.ClaimTx?
    ensures SameClaims(a, b)
  {
    hide StoreInv, Save, Trashed, Restored, RestoreError, C.CreatedSeries, S.AfterSplit, S.SplitError, C.SeriesError,
         S.Acceptable, Portion, SeriesKeys, C.Fills, IsEdit, CreateNote, UpdateNote, DeleteNote, RestoreNote, Keeps,
         M.PurgeTo, M.Targets, M.ExpiredNotes, T.DeletedTag, Authorize, RecordOutcome, Classify, R.StaleKeys;
    if EditTx(tx) {
      TxIsEdit(a, b, tx, now);
      EditClaims(a, b, now);
    } else if tx.PurgeTx? { PurgeClaims(a, b, tx.picked, tx.purged, tx.cutoff, now); }
    else if tx.DeleteTagTx? { T.DeleteTagKeeps(a, tx.tag, tx.order); }
    else { JobClaims(a, b, tx, now); }
  }

  // ---------- deadlines ----------

  lemma JobOnTime(a: Db, b: Db, clock: Time, now: Time)
    requires OnTime(a, clock) && clock <= now && JobOnly(a, b)
    requires forall dk :: dk in b.deliveries && b.deliveries[dk] != a.deliveries[dk] ==> InTime(b, dk, now)
    ensures OnTime(b, now)
  {
  }

  lemma ClaimOnTime(a: Db, t: Terms, tokens: map<DeliveryKey, Token>, dk: DeliveryKey)
    requires tokens.Keys <= ClaimableKeys(a, t.now) && dk in a.deliveries && dk in tokens
    ensures InTime(ClaimBatch(a, t, tokens), dk, t.now)
  {
  }

  lemma AuthorizeOnTime(a: Db, task: R.Task, now: Time, grace: Time, recipient: string, dk: DeliveryKey)
    requires dk in a.deliveries && dk.rule in a.rules
    requires var b := Authorize(a, task.delivery, task.token, now, grace, recipient);
             dk in b.deliveries && b.deliveries[dk] != a.deliveries[dk]
    ensures InTime(Authorize(a, task.delivery, task.token, now, grace, recipient), dk, now)
  {
    hide Deliverable, AuthorizedDb;
    var b := Authorize(a, task.delivery, task.token, now, grace, recipient);
    match Judge(a, task.delivery, task.token, now, grace)
    case Ignored =>
    case Authorized => AuthorizedRow(a, task.delivery, now, recipient);
    case Withdrawn => StillWithdrawn(a, b, task, now, grace);
    case _ =>
  }

  lemma AuthorizedRow(a: Db, dk: DeliveryKey, now: Time, recipient: string)
    requires dk in a.deliveries && dk.rule.note in a.notes
    ensures var b := AuthorizedDb(a, dk, now, recipient);
            && b.deliveries.Keys == a.deliveries.Keys
            && b.deliveries[dk].state.AttemptStarted? && b.deliveries[dk].dueAt == a.deliveries[dk].dueAt
            && forall x :: x in a.deliveries && x != dk ==> b.deliveries[x] == a.deliveries[x]
  {
  }

  lemma StillWithdrawn(a: Db, b: Db, task: R.Task, now: Time, grace: Time)
    requires Judge(a, task.delivery, task.token, now, grace).Withdrawn? && b.notes == a.notes && b.rules == a.rules
    ensures !Deliverable(b, task.delivery)
  {
  }

  lemma PurgeOnTime(a: Db, b: Db, picked: set<NoteId>, order: seq<NoteId>, cutoff: Time, clock: Time, now: Time)
    requires OnTime(a, clock) && clock <= now
    requires Elements(order) == M.Targets(a, picked, cutoff) && M.Purge(a, picked, order, cutoff, now) == Some(b)
    ensures OnTime(b, now)
  {
    hide M.EmptiedSeries, M.PurgedExceptions, M.Candidates, M.PurgeEvents;
    forall dk | dk in b.deliveries ensures InTime(b, dk, now) {
      assert InTime(a, dk, clock);
    }
  }

  lemma TagOnTime(a: Db, tag: TagId, order: seq<SeriesId>, clock: Time, now: Time)
    requires OnTime(a, clock) && clock <= now && tag in a.tags && Elements(order) == T.TaggedSeries(a, tag)
    ensures OnTime(T.DeletedTag(a, tag, order), now)
  {
  }

  lemma EditTxOnTime(a: Db, b: Db, clock: Time, now: Time)
    requires StoreInv(a) && IsEdit(a, b, now) && OnTime(a, clock) && clock <= now
    ensures OnTime(b, now)
  {
    hide Reconcile, SlotInv, TrashInv, LineageInv, RedactionInv, ReminderInv, OnTime, PlanCovers, PlanNotesOnly;
    var notes, p :| EditBy(a, b, notes, p, now);
    EditOnTime(a, notes, p, clock, now, b);
  }

  /** With a clock that does not run backwards, no transaction claims or writes off a deadline
      that is still ahead. */
  lemma TxOnTime(a: Db, b: Db, tx: Tx, clock: Time, now: Time)
    requires StoreInv(a) && Commits(a, b, tx, now) && OnTime(a, clock) && clock <= now
    ensures OnTime(b, now)
  {
    hide StoreInv, Save, Trashed, Restored, RestoreError, C.CreatedSeries, S.AfterSplit, S.SplitError, C.SeriesError,
         S.Acceptable, Portion, SeriesKeys, C.Fills, IsEdit, CreateNote, UpdateNote, DeleteNote, RestoreNote, Keeps,
         M.PurgeTo, M.Targets, M.ExpiredNotes, T.DeletedTag, OnTime;
    if EditTx(tx) {
      TxIsEdit(a, b, tx, now);
      EditTxOnTime(a, b, clock, now);
    } else if tx.PurgeTx? { PurgeOnTime(a, b, tx.picked, tx.purged, tx.cutoff, clock, now); }
    else if tx.DeleteTagTx? { TagOnTime(a, tx.tag, tx.order, clock, now); }
    else { JobTxOnTime(a, b, tx, clock, now); }
  }

  lemma ClaimTxOnTime(a: Db, t: Terms, tokens: map<DeliveryKey, Token>, clock: Time)
    requires StoreInv(a) && tokens.Keys <= ClaimableKeys(a, t.now) && OnTime(a, clock) && clock <= t.now
    ensures OnTime(ClaimBatch(a, t, tokens), t.now)
  {
    hide ReminderInv, SlotInv, TrashInv, LineageInv, RedactionInv, OnTime, InTime, ClaimBatch, JobOnly, Claimable;
    var b := ClaimBatch(a, t, tokens);
    ClaimIsJob(a, t, tokens);
    ClaimKeys(a, t, tokens);
    forall dk | dk in b.deliveries && b.deliveries[dk] != a.deliveries[dk] ensures InTime(b, dk, t.now) {
      Unclaimed(a, t, tokens, dk);
      ClaimOnTime(a, t, tokens, dk);
    }
    JobOnTime(a, b, clock, t.now);
  }

  lemma ClaimKeys(a: Db, t: Terms, tokens: map<DeliveryKey, Token>)
    ensures ClaimBatch(a, t, tokens).deliveries.Keys == a.deliveries.Keys
  {
  }

  lemma AuthorizeTxOnTime(a: Db, task: R.Task, clock: Time, now: Time, grace: Time, recipient: string)
    requires StoreInv(a) && OnTime(a, clock) && clock <= now
    ensures OnTime(Authorize(a, task.delivery, task.token, now, grace, recipient), now)
  {
    var b := Authorize(a, task.delivery, task.token, now, grace, recipient);
    AuthorizeIsJob(a, task.delivery, task.token, now, grace, recipient);
    assert RulesHeld(a) by { AllRulesHeld(a); }
    hide ReminderInv, SlotInv, TrashInv, LineageInv, RedactionInv, OnTime, InTime, Authorize;
    forall dk | dk in b.deliveries && b.deliveries[dk] != a.deliveries[dk] ensures InTime(b, dk, now) {
      AuthorizeOnTime(a, task, now, grace, recipient, dk);
    }
    JobOnTime(a, b, clock, now);
  }

  ghost predicate RulesHeld(a: Db) {
    forall dk :: dk in a.deliveries ==> dk.rule in a.rules
  }

  lemma AllRulesHeld(a: Db)
    requires ReminderInv(a)
    ensures RulesHeld(a)
  {
  }

  lemma FinishTxOnTime(a: Db, dk: DeliveryKey, o: Outcome, clock: Time, now: Time)
    requires StoreInv(a) && OnTime(a, clock) && clock <= now && dk in a.deliveries
    requires a.deliveries[dk].state.AttemptStarted? ==> dk in a.notifications
    ensures OnTime(RecordOutcome(a, dk, o, now), now)
  {
    hide ReminderInv, SlotInv, TrashInv, LineageInv, RedactionInv, OnTime, InTime, JobOnly;
    var b := RecordOutcome(a, dk, o, now);
    FinishIsJob(a, dk, o, now);
    if a.deliveries[dk].state.AttemptStarted? { FinishInTime(a, b, dk, clock, now); }
    JobOnTime(a, b, clock, now);
  }

  lemma ClassifyTxOnTime(a: Db, rows: seq<DeliveryKey>, olderThan: Time, clock: Time, now: Time)
    requires StoreInv(a) && OnTime(a, clock) && clock <= now && Elements(rows) <= R.StaleKeys(a, now, olderThan)
    ensures OnTime(Classify(a, rows, now), now)
  {
    StaleRows(a, rows, now, olderThan);
    hide ReminderInv, SlotInv, TrashInv, LineageInv, RedactionInv, OnTime, InTime, JobOnly, R.StaleKeys, MarkFailure;
    var b := Classify(a, rows, now);
    ClassifyIsJob(a, rows, now);
    forall dk | dk in b.deliveries && b.deliveries[dk] != a.deliveries[dk] ensures InTime(b, dk, now) {
      FinishInTime(a, b, dk, clock, now);
    }
    JobOnTime(a, b, clock, now);
  }

  lemma JobTxOnTime(a: Db, b: Db, tx: Tx, clock: Time, now: Time)
    requires StoreInv(a) && Commits(a, b, tx, now) && OnTime(a, clock) && clock <= now
    requires tx.ClaimTx? || tx.AuthorizeTx? || tx.FinishTx? || tx.ClassifyTx?
    ensures OnTime(b, now)
  {
    hide StoreInv, OnTime, Authorize, ClaimBatch, RecordOutcome, Classify, ClaimableKeys, R.StaleKeys;
    match tx
    case ClaimTx(t, tokens) => ClaimTxOnTime(a, t, tokens, clock);
    case AuthorizeTx(task, grace, recipient) => AuthorizeTxOnTime(a, task, clock, now, grace, recipient);
    case FinishTx(dk, o) => FinishTxOnTime(a, dk, o, clock, now);
    case ClassifyTx(rows, olderThan) => ClassifyTxOnTime(a, rows, olderThan, clock, now);
  }

  lemma Unclaimed(a: Db, t: Terms, tokens: map<DeliveryKey, Token>, dk: DeliveryKey)
    requires dk in a.deliveries && ClaimBatch(a, t, tokens).deliveries[dk] != a.deliveries[dk]
    ensures dk in tokens
  {
  }

  /** What a finalizer writes was an attempt before, so its deadline had come. */
  lemma FinishInTime(a: Db, b: Db, dk: DeliveryKey, clock: Time, now: Time)
    requires OnTime(a, clock) && clock <= now && dk in a.deliveries && a.deliveries[dk].state.AttemptStarted?
    requires dk in b.deliveries && Finished(b.deliveries[dk]) && b.deliveries[dk].dueAt == a.deliveries[dk].dueAt
    ensures InTime(b, dk, now)
  {
    assert InTime(a, dk, clock);
  }

  // ---------- places ----------

  /** Rows keep their slot; a row that stands stood before, unless it belongs to a new series. */
  ghost predicate SlotsKept(a: Db, b: Db) {
    && a.notes.Keys <= b.notes.Keys && MarksNothing(a, b)
    && (forall n :: n in b.notes ==>
          if n in a.notes then SameSlotRow(a.notes[n], b.notes[n]) && (Visible(b, n) ==> Visible(a, n))
          else (b.notes[n].seriesId.Some? ==> b.notes[n].seriesId.value !in a.series))
  }

  ghost predicate LinksKept(a: Db, b: Db) {
    && a.series.Keys <= b.series.Keys
    && (forall s :: s in b.series ==>
          if s in a.series then SameLinks(a.series[s], b.series[s]) else b.series[s].predecessor.None?)
  }

  lemma KeptIsPlaced(a: Db, b: Db)
    requires SlotsKept(a, b) && LinksKept(a, b)
    ensures KeepsPlaces(a, b)
  {
  }

  lemma SavePlaces(a: Db, locked: Db, id: NoteId, e: Edit, now: Time)
    requires Editable(a, id, e) && locked == a.(series := locked.series)
    requires if id in a.notes
             then e.row.supersededAt == a.notes[id].supersededAt
               && e.row.seriesTrashedAt == a.notes[id].seriesTrashedAt
             else e.row.supersededAt.None? && e.row.seriesTrashedAt.None?
    ensures SlotsKept(a, Save(locked, id, e, now)) && Save(locked, id, e, now).series == locked.series
  {
    hide Reconcile, WithTags, OverridesOf;
  }

  lemma LockLinks(a: Db, id: NoteId, expected: Option<int>)
    requires Visible(a, id) && LockSeries(a, a.notes[id], expected).Success?
    ensures var locked := LockSeries(a, a.notes[id], expected).value;
            locked == a.(series := locked.series) && LinksKept(a, locked)
  {
  }

  lemma NoteTxPlaces(a: Db, b: Db, tx: Tx, now: Time)
    requires StoreInv(a) && Commits(a, b, tx, now)
    requires tx.CreateNoteTx? || tx.UpdateNoteTx? || tx.DeleteNoteTx? || tx.RestoreNoteTx?
    ensures SlotsKept(a, b) && LinksKept(a, b)
  {
    hide StoreInv, Save, Strip, LockSeries, Keeps, SlotsKept;
    if tx.CreateNoteTx? {
      var f := tx.fields;
      var row := Note(Strip(f.title), f.body, f.startsAt, f.active, None, None, None, None, None, None, None, 1);
      SavePlaces(a, a, tx.id, Edit(row, Some(f.tags), f.offsets, false, None, NoteCreated), now);
    } else {
      var n := a.notes[tx.id];
      LockLinks(a, tx.id, tx.seriesVersion);
      var locked := LockSeries(a, n, tx.seriesVersion).value;
      if tx.UpdateNoteTx? {
        var f := tx.fields;
        NotInAction(a, tx.id);
        var row := n.(title := Strip(f.title), body := f.body, startsAt := f.startsAt, active := f.active,
                      version := n.version + 1);
        SavePlaces(a, locked, tx.id,
                   Edit(row, Some(f.tags), f.offsets, n.startsAt != f.startsAt, None, NoteUpdated), now);
      } else if tx.RestoreNoteTx? {
        SavePlaces(a, locked, tx.id,
                   Edit(n.(deletedAt := None, version := n.version + 1), None, EnabledOffsets(a, tx.id), false,
                        Some(false), NoteRestored), now);
      } else if n.deletedAt.Some? { SameNotesPlaces(a, b); }
      else {
        NotInAction(a, tx.id);
        SavePlaces(a, locked, tx.id,
                   Edit(n.(deletedAt := Some(now), version := n.version + 1), None, EnabledOffsets(a, tx.id), false,
                        Some(true), NoteDeleted), now);
      }
    }
  }

  lemma SameNotesPlaces(a: Db, b: Db)
    requires b.notes == a.notes
    ensures SlotsKept(a, b)
  {
  }

  lemma RelabelPlaces(a: Db, s: SeriesId, boundary: Time, x: ActionId, now: Time)
    requires s in a.series
    ensures KeepsPlaces(a, Trashed(a, s, boundary, x, now))
  {
    hide Reconcile, EnabledOffsets;
    KeptIsPlaced(a, Trashed(a, s, boundary, x, now));
  }

  lemma RestorePlaces(a: Db, x: ActionId, now: Time)
    requires x in a.actions && a.actions[x].series in a.series
    ensures KeepsPlaces(a, Restored(a, x, now))
  {
    hide Reconcile, EnabledOffsets;
    KeptIsPlaced(a, Restored(a, x, now));
  }

  lemma CreatedPlaces(a: Db, s: SeriesId, f: C.SeriesFields, slots: map<NoteId, Time>, now: Time)
    requires C.WellTyped(f) && s !in a.series && slots.Keys !! a.notes.Keys
    ensures KeepsPlaces(a, C.CreatedSeries(a, s, f, slots, now))
  {
    hide Reconcile, Strip, KeepsPlaces, C.TagsFor, C.SeriesTagsFor, C.TemplatesFor;
    KeptIsPlaced(a, C.CreatedSeries(a, s, f, slots, now));
  }

  lemma PurgePlaces(a: Db, b: Db, picked: set<NoteId>, order: seq<NoteId>, cutoff: Time, now: Time)
    requires Elements(order) == M.Targets(a, picked, cutoff) && M.Purge(a, picked, order, cutoff, now) == Some(b)
    ensures KeepsPlaces(a, b)
  {
    hide M.EmptiedSeries, M.PurgedExceptions, M.Candidates, M.PurgeEvents;
    KeptIsPlaced(a, b);
  }

  lemma TagPlaces(a: Db, tag: TagId, order: seq<SeriesId>)
    requires tag in a.tags && Elements(order) == T.TaggedSeries(a, tag)
    ensures KeepsPlaces(a, T.DeletedTag(a, tag, order))
  {
    hide T.SeriesEvents, T.Tagged, T.TaggedSeries;
    KeptIsPlaced(a, T.DeletedTag(a, tag, order));
  }

  lemma JobPlaces(a: Db, b: Db)
    requires b.notes == a.notes && b.series == a.series
    ensures KeepsPlaces(a, b)
  {
  }

  lemma RestoreTxPlaces(a: Db, x: ActionId, v: int, selected: Option<Selected>, now: Time)
    requires RestoreAction(a, x, v, selected, now).Success?
    ensures KeepsPlaces(a, RestoreAction(a, x, v, selected, now).value)
  {
    hide Restored, KeepsPlaces, MembersOf;
    RestorePlaces(a, x, now);
  }

  lemma JobTxPlaces(a: Db, b: Db, tx: Tx, now: Time)
    requires Commits(a, b, tx, now) && (tx.ClaimTx? || tx.AuthorizeTx? || tx.FinishTx? || tx.ClassifyTx?)
    ensures KeepsPlaces(a, b)
  {
    hide KeepsPlaces, ClaimBatch, Classify, Authorize, RecordOutcome, ClaimableKeys, R.StaleKeys;
    match tx
    case ClaimTx(t, tokens) => SameTables(a, t, tokens); JobPlaces(a, b);
    case AuthorizeTx(task, grace, recipient) =>
      AuthorizeTables(a, task.delivery, task.token, now, grace, recipient);
      JobPlaces(a, b);
    case FinishTx(dk, o) => FinishTables(a, dk, o, now); JobPlaces(a, b);
    case ClassifyTx(rows, olderThan) => ClassifyTables(a, rows, now); JobPlaces(a, b);
  }

  lemma AuthorizeTables(a: Db, dk: DeliveryKey, token: Token, now: Time, grace: Time, recipient: string)
    ensures var b := Authorize(a, dk, token, now, grace, recipient); b.notes == a.notes && b.series == a.series
  {
    hide Released, PutDelivery, AuthorizedDb, Live;
  }

  lemma FinishTables(a: Db, dk: DeliveryKey, o: Outcome, now: Time)
    requires dk in a.deliveries && (a.deliveries[dk].state.AttemptStarted? ==> dk in a.notifications)
    ensures RecordOutcome(a, dk, o, now).notes == a.notes && RecordOutcome(a, dk, o, now).series == a.series
  {
  }

  /** Only a split moves an occurrence to another series or links series together. */
  lemma TxPlaces(a: Db, b: Db, tx: Tx, now: Time)
    requires StoreInv(a) && Commits(a, b, tx, now) && !tx.SplitTx?
    ensures KeepsPlaces(a, b)
  {
    hide StoreInv, Save, Trashed, Restored, RestoreAction, C.CreatedSeries, S.AfterSplit, S.SplitError, C.SeriesError,
         S.Acceptable, Portion, SeriesKeys, C.Fills, CreateNote, UpdateNote, DeleteNote, RestoreNote, Keeps,
         M.PurgeTo, M.Targets, M.ExpiredNotes, T.DeletedTag, KeepsPlaces, SlotsKept, LinksKept, ClaimBatch, Classify,
         Authorize, RecordOutcome, ClaimableKeys, R.StaleKeys;
    match tx
    case CreateSeriesTx(e, s, f, slots) =>
      SeriesCreated(a, b, tx, now);
      CreatedPlaces(a, s, f, slots, now);
    case TrashTx(s, _, _, boundary, x) => RelabelPlaces(a, s, boundary, x, now);
    case RestoreActionTx(x, v, selected) => RestoreTxPlaces(a, x, v, selected, now);
    case DeleteTagTx(tag, order) => TagPlaces(a, tag, order);
    case PurgeTx(picked, order, cutoff) => PurgePlaces(a, b, picked, order, cutoff, now);
    case CreateNoteTx(_, _) => NoteTxPlaces(a, b, tx, now); KeptIsPlaced(a, b);
    case UpdateNoteTx(_, _, _, _) => NoteTxPlaces(a, b, tx, now); KeptIsPlaced(a, b);
    case DeleteNoteTx(_, _, _) => NoteTxPlaces(a, b, tx, now); KeptIsPlaced(a, b);
    case RestoreNoteTx(_, _, _) => NoteTxPlaces(a, b, tx, now); KeptIsPlaced(a, b);
    case _ => JobTxPlaces(a, b, tx, now);
  }

  lemma SameTables(a: Db, t: Terms, tokens: map<DeliveryKey, Token>)
    ensures ClaimBatch(a, t, tokens).notes == a.notes && ClaimBatch(a, t, tokens).series == a.series
  {
  }

  lemma ClassifyTables(a: Db, rows: seq<DeliveryKey>, now: Time)
    ensures Classify(a, rows, now).notes == a.notes && Classify(a, rows, now).series == a.series
  {
  }

  lemma SplitMarks(a: Db, e: C.Settings, c: S.Cut, slots: map<NoteId, Time>)
    requires S.Acceptable(a, e, c, slots)
    ensures MarksNothing(a, S.AfterSplit(a, e, c, slots))
  {
    hide Reconcile, Strip, S.CutBatch, S.TagsAfter, S.ExceptionsLeft, S.Collides, S.Affected;
    S.CutRows(a, c, slots);
  }

  /** No current code sets the legacy trash marker. */
  lemma TxMarksNothing(a: Db, b: Db, tx: Tx, now: Time)
    requires StoreInv(a) && Commits(a, b, tx, now)
    ensures MarksNothing(a, b)
  {
    hide StoreInv, Commits, S.AfterSplit, S.Acceptable, MarksNothing;
    if tx.SplitTx? {
      SplitFacts(a, b, tx, now);
      SplitMarks(a, tx.e, CutOf(tx, now), tx.slots);
    } else { TxPlaces(a, b, tx, now); }
  }
}

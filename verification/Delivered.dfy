/** What the record of a delivery tells about what really happened: which SMTP outcome a result
    stands for, and that nothing was acted on or written off before its deadline. */
module Delivered {
  import opened Prelude
  import opened Storage
  import opened Reconciliation
  import opened Invariants
  import opened Lineage
  import opened Store
  import opened Reminders
  import opened Transactions
  import opened Effects
  import opened Protocol
  import opened NoteHandlers
  import opened TrashActions
  import C = SeriesCreation
  import S = Split
  import M = Maintenance
  import T = Tags
  import R = ReminderJobs

  // ---------- results ----------

  /** In this step the outcome becomes known: SMTP answers for a valid recipient, or the address
      is found to be none. */
  predicate Tells(w: World, step: Step, dk: DeliveryKey, o: Outcome) {
    || (step.Send? && step.worker in w.workers && w.workers[step.worker].delivery == dk && step.outcome == o
        && !o.BadAddress? && ValidRecipient(w.workers[step.worker].email.recipient))
    || (step.RejectAddress? && step.worker in w.workers && w.workers[step.worker].delivery == dk && o.BadAddress?
        && !ValidRecipient(w.workers[step.worker].email.recipient))
  }

  ghost predicate Told(run: seq<World>, steps: seq<Step>, i: nat, dk: DeliveryKey, o: Outcome)
    requires i <= |steps| < |run|
  {
    exists k :: 0 <= k < i && Tells(run[k], steps[k], dk, o)
  }

  lemma NewOutcome(w: World, w': World, step: Step, id: int)
    requires Next(w, w', step) && id in w'.workers && w'.workers[id].phase.Done?
    ensures (id in w.workers && w.workers[id] == w'.workers[id])
            || Tells(w, step, w'.workers[id].delivery, w'.workers[id].phase.outcome)
  {
    hide Commits, Authorize, AuthorizedEmail, ValidRecipient;
  }

  /** A worker reports only what SMTP, or the address, has told it. */
  lemma {:induction false} WorkerWasTold(run: seq<World>, steps: seq<Step>, i: nat, id: int)
    requires Run(run, steps) && i < |run| && id in run[i].workers && run[i].workers[id].phase.Done?
    ensures Told(run, steps, i, run[i].workers[id].delivery, run[i].workers[id].phase.outcome)
    decreases i
  {
    hide Next, Tells;
    if i > 0 {
      NewOutcome(run[i - 1], run[i], steps[i - 1], id);
      if id in run[i - 1].workers && run[i - 1].workers[id] == run[i].workers[id] {
        WorkerWasTold(run, steps, i - 1, id);
      }
    }
  }

  /** The report of a worker leaves the result its outcome stands for. */
  lemma ReportsAreRecorded(run: seq<World>, steps: seq<Step>, i: nat)
    requires Run(run, steps) && i < |steps| && steps[i].Report?
    ensures steps[i].worker in run[i].workers && run[i].workers[steps[i].worker].phase.Done?
    ensures var w := run[i].workers[steps[i].worker];
            && w.delivery in run[i].db.deliveries
            && R.Reported(run[i].db, run[i + 1].db, w.delivery, w.phase.outcome, steps[i].now)
  {
    hide R.Reported, RecordOutcome;
    assert Next(run[i], run[i + 1], steps[i]);
    var w := run[i].workers[steps[i].worker];
    R.ReportLeaves(run[i].db, w.delivery, w.phase.outcome, steps[i].now);
  }

  lemma ReportStep(w: World, w': World, step: Step, dk: DeliveryKey)
    requires Next(w, w', step) && step.Report? && dk in w'.db.deliveries && Finished(w'.db.deliveries[dk])
    requires dk in w.db.deliveries ==> !Finished(w.db.deliveries[dk])
    ensures step.worker in w.workers && w.workers[step.worker].phase.Done? && w.workers[step.worker].delivery == dk
    ensures dk in w.db.deliveries
            && R.ResultOf(w.db.deliveries[dk], w'.db.deliveries[dk], w.workers[step.worker].phase.outcome, step.now)
  {
    hide RecordOutcome, MarkedOnce, R.ResultOf;
    R.ReportLeaves(w.db, w.workers[step.worker].delivery, w.workers[step.worker].phase.outcome, step.now);
  }

  lemma ClassifyStep(w: World, w': World, step: Step, dk: DeliveryKey)
    requires StoreInv(w.db) && Next(w, w', step) && step.ClassifyUnknown?
    requires dk in w'.db.deliveries && Finished(w'.db.deliveries[dk])
    requires dk in w.db.deliveries ==> !Finished(w.db.deliveries[dk])
    ensures w'.db.deliveries[dk].state.Unknown? && w'.db.deliveries[dk].errorCode == Some(WorkerOutcomeUnknown)
  {
    hide StoreInv, Classify, R.StaleKeys, R.GivenUp;
    StaleRows(w.db, step.rows, step.now, step.olderThan);
    R.ClassifyLeaves(w.db, step.rows, step.now);
    Lost(w.db, w'.db, step.rows, step.now, dk);
  }

  lemma Lost(a: Db, b: Db, rows: seq<DeliveryKey>, now: Time, dk: DeliveryKey)
    requires StoreInv(a) && R.GivenUp(a, b, rows, now) && dk in b.deliveries && Finished(b.deliveries[dk])
    requires forall x :: x in rows ==> x in a.deliveries && a.deliveries[x].state.AttemptStarted?
    requires dk in a.deliveries ==> !Finished(a.deliveries[dk])
    ensures b.deliveries[dk].state.Unknown? && b.deliveries[dk].errorCode == Some(WorkerOutcomeUnknown)
  {
    hide SlotInv, TrashInv, LineageInv, RedactionInv, MarkedOnce;
    RowFacts(a);
  }

  lemma OtherStep(w: World, w': World, step: Step, dk: DeliveryKey)
    requires StoreInv(w.db) && Next(w, w', step) && !step.Report? && !step.ClassifyUnknown?
    requires dk in w'.db.deliveries && Finished(w'.db.deliveries[dk])
    ensures dk in w.db.deliveries && Finished(w.db.deliveries[dk])
  {
    hide StoreInv, Commits, Authorize, AuthorizedEmail, SameAttempts;
    match step
    case Transact(tx, now) => TxAttempts(w.db, w'.db, tx, now); FinishedBefore(w.db, w'.db, dk);
    case Scan(t, drawn, _) => TxAttempts(w.db, w'.db, ClaimTx(t, drawn), t.now); FinishedBefore(w.db, w'.db, dk);
    case Authorize1(_, task, now, grace, recipient) =>
      AuthorizeAttempts(w.db, task.delivery, task.token, now, grace, recipient);
      assert dk in FinishedKeys(w'.db);
    case _ =>
  }

  lemma FinishedBefore(a: Db, b: Db, dk: DeliveryKey)
    requires SameAttempts(a, b) && dk in b.deliveries && Finished(b.deliveries[dk])
    ensures dk in a.deliveries && Finished(a.deliveries[dk])
  {
  }

  /** The results and codes there can be, each with what must have happened. */
  ghost predicate TrueResult(run: seq<World>, steps: seq<Step>, i: nat, dk: DeliveryKey, d: Delivery)
    requires i <= |steps| < |run|
  {
    || (d.state.Sent? && d.errorCode.None? && Told(run, steps, i, dk, Accepted))
    || (d.state.Failed? && d.errorCode == Some(SmtpSendFailed) && Told(run, steps, i, dk, Refused))
    || (d.state.Failed? && d.errorCode == Some(InvalidRecipient) && Told(run, steps, i, dk, BadAddress))
    || (d.state.Unknown? && d.errorCode == Some(SmtpOutcomeUnknown) && Told(run, steps, i, dk, Ambiguous))
    || (d.state.Unknown? && d.errorCode == Some(WorkerOutcomeUnknown))
  }

  lemma LaterTold(run: seq<World>, steps: seq<Step>, i: nat, j: nat, dk: DeliveryKey, d: Delivery, d': Delivery)
    requires i <= j <= |steps| < |run| && TrueResult(run, steps, i, dk, d)
    requires d'.state == d.state && d'.errorCode == d.errorCode
    ensures TrueResult(run, steps, j, dk, d')
  {
  }

  lemma NowTold(run: seq<World>, steps: seq<Step>, i: nat, dk: DeliveryKey, o: Outcome, d: Delivery, d': Delivery,
                now: Time)
    requires i < |steps| < |run| && Told(run, steps, i, dk, o) && R.ResultOf(d, d', o, now)
    ensures TrueResult(run, steps, i + 1, dk, d')
  {
    hide Tells;
    var k :| 0 <= k < i && Tells(run[k], steps[k], dk, o);
    assert Told(run, steps, i + 1, dk, o);
  }

  /** Every recorded result is true: what is sent was accepted by SMTP for a valid recipient, what
      failed was refused or had no valid address, what is unknown was ambiguous or never
      reported. */
  lemma {:induction false} ResultsAreTrue(run: seq<World>, steps: seq<Step>, i: nat, dk: DeliveryKey)
    requires Run(run, steps) && i < |run|
    requires dk in run[i].db.deliveries && Finished(run[i].db.deliveries[dk])
    ensures TrueResult(run, steps, i, dk, run[i].db.deliveries[dk])
    decreases i
  {
    hide StoreInv, HistoryInv, WorkerInv, Next, Told, TrueResult, R.ResultOf;
    if i > 0 {
      var w, w', step := run[i - 1], run[i], steps[i - 1];
      Safety(run, steps, i - 1);
      if dk in w.db.deliveries && Finished(w.db.deliveries[dk]) {
        ResultsAreTrue(run, steps, i - 1, dk);
        Forwards(run, steps, i - 1, i);
        LaterTold(run, steps, i - 1, i, dk, w.db.deliveries[dk], w'.db.deliveries[dk]);
      } else if step.Report? {
        ReportStep(w, w', step, dk);
        WorkerWasTold(run, steps, i - 1, step.worker);
        NowTold(run, steps, i - 1, dk, w.workers[step.worker].phase.outcome, w.db.deliveries[dk],
                w'.db.deliveries[dk], step.now);
      } else if step.ClassifyUnknown? {
        ClassifyStep(w, w', step, dk);
        assert TrueResult(run, steps, i, dk, w'.db.deliveries[dk]) by { LostResult(run, steps, i, dk); }
      } else {
        OtherStep(w, w', step, dk);
      }
    }
  }

  lemma LostResult(run: seq<World>, steps: seq<Step>, i: nat, dk: DeliveryKey)
    requires i <= |steps| < |run| && dk in run[i].db.deliveries
    requires var d := run[i].db.deliveries[dk]; d.state.Unknown? && d.errorCode == Some(WorkerOutcomeUnknown)
    ensures TrueResult(run, steps, i, dk, run[i].db.deliveries[dk])
  {
  }

  // ---------- dates ----------

  /** What was missed was past its deadline when it was written off, and what was attempted was
      due when it was authorized. */
  predicate Dated(d: Delivery) {
    && (d.state.Missed? ==> d.resultAt.Some? && d.dueAt <= d.resultAt.value)
    && (d.state in {AttemptStarted, Sent, Failed, Unknown} ==>
          d.authorizedAt.Some? && d.dueAt <= d.authorizedAt.value)
  }

  ghost predicate AllDated(db: Db) {
    forall dk :: dk in db.deliveries ==> Dated(db.deliveries[dk])
  }

  lemma EditDated(a: Db, b: Db, now: Time)
    requires IsEdit(a, b, now) && AllDated(a)
    ensures AllDated(b)
  {
    hide Reconcile, PlanNotesOnly;
    var notes, p :| EditBy(a, b, notes, p, now);
    var mid := a.(notes := notes);
    forall dk | dk in b.deliveries ensures Dated(b.deliveries[dk]) {
      if dk in a.deliveries {
        OldCycleEnds(mid, p, now, dk);
        assert Dated(a.deliveries[dk]);
      } else { NewCycleBegins(mid, p, now, dk); }
    }
  }

  lemma PurgeDated(a: Db, b: Db, picked: set<NoteId>, order: seq<NoteId>, cutoff: Time, now: Time)
    requires AllDated(a) && Elements(order) == M.Targets(a, picked, cutoff)
    requires M.Purge(a, picked, order, cutoff, now) == Some(b)
    ensures AllDated(b)
  {
    hide M.EmptiedSeries, M.PurgedExceptions, M.Candidates, M.PurgeEvents;
    forall dk | dk in b.deliveries ensures Dated(b.deliveries[dk]) {
      assert Dated(a.deliveries[dk]);
    }
  }

  lemma ClaimDated(a: Db, t: Terms, tokens: map<DeliveryKey, Token>)
    requires AllDated(a) && tokens.Keys <= ClaimableKeys(a, t.now)
    ensures AllDated(ClaimBatch(a, t, tokens))
  {
    hide ClaimBatch, ClaimableKeys;
    R.ScanLeaves(a, t, tokens);
    forall dk | dk in a.deliveries ensures Dated(ClaimBatch(a, t, tokens).deliveries[dk]) {
      assert Dated(a.deliveries[dk]);
    }
  }

  lemma AuthorizeDated(a: Db, dk: DeliveryKey, token: Token, now: Time, grace: Time, recipient: string)
    requires AllDated(a)
    ensures AllDated(Authorize(a, dk, token, now, grace, recipient))
  {
    hide PutDelivery, AllDated;
    match Judge(a, dk, token, now, grace)
    case Ignored =>
    case Authorized => AttemptDated(a, dk, now, recipient);
    case Withdrawn => PutDated(a, dk, Released(a.deliveries[dk], Cancelled, Some(now)));
    case Early => PutDated(a, dk, Released(a.deliveries[dk], Pending, None));
    case TooLate => PutDated(a, dk, Released(a.deliveries[dk], Missed, Some(now))) by { LateIsDue(a, dk, now); }
  }

  lemma LateIsDue(a: Db, dk: DeliveryKey, now: Time)
    requires dk in a.deliveries && a.deliveries[dk].dueAt <= now
    ensures Dated(Released(a.deliveries[dk], Missed, Some(now)))
  {
  }

  lemma AttemptDated(a: Db, dk: DeliveryKey, now: Time, recipient: string)
    requires AllDated(a) && dk in a.deliveries && dk.rule.note in a.notes && a.deliveries[dk].dueAt <= now
    ensures AllDated(AuthorizedDb(a, dk, now, recipient))
  {
    var b := AuthorizedDb(a, dk, now, recipient);
    forall x | x in b.deliveries ensures Dated(b.deliveries[x]) {
      assert x in a.deliveries && Dated(a.deliveries[x]);
    }
  }

  lemma PutDated(a: Db, dk: DeliveryKey, d: Delivery)
    requires AllDated(a) && Dated(d)
    ensures AllDated(PutDelivery(a, dk, d))
  {
  }

  lemma FinishDated(a: Db, dk: DeliveryKey, o: Outcome, now: Time)
    requires AllDated(a) && dk in a.deliveries && (a.deliveries[dk].state.AttemptStarted? ==> dk in a.notifications)
    ensures AllDated(RecordOutcome(a, dk, o, now))
  {
    hide MarkFailure;
  }

  lemma ClassifyDated(a: Db, rows: seq<DeliveryKey>, now: Time)
    requires AllDated(a) && forall dk :: dk in rows ==> dk in a.deliveries && a.deliveries[dk].state.AttemptStarted?
    ensures AllDated(Classify(a, rows, now))
  {
    hide MarkFailure;
  }

  lemma TxDated(a: Db, b: Db, tx: Tx, now: Time)
    requires StoreInv(a) && Commits(a, b, tx, now) && AllDated(a)
    ensures AllDated(b)
  {
    hide StoreInv, Save, Trashed, Restored, RestoreError, C.CreatedSeries, S.AfterSplit, S.SplitError, C.SeriesError,
         S.Acceptable, Portion, SeriesKeys, C.Fills, IsEdit, CreateNote, UpdateNote, DeleteNote, RestoreNote, Keeps,
         M.PurgeTo, M.Targets, M.ExpiredNotes, T.DeletedTag, Authorize, RecordOutcome, Classify, R.StaleKeys,
         ClaimBatch, ClaimableKeys, AllDated;
    if EditTx(tx) {
      TxIsEdit(a, b, tx, now);
      EditDated(a, b, now);
    } else {
      match tx
      case PurgeTx(picked, order, cutoff) => PurgeDated(a, b, picked, order, cutoff, now);
      case DeleteTagTx(tag, order) => T.DeleteTagKeeps(a, tag, order); SameDated(a, b);
      case ClaimTx(t, tokens) => ClaimDated(a, t, tokens);
      case AuthorizeTx(task, grace, recipient) => AuthorizeDated(a, task.delivery, task.token, now, grace, recipient);
      case FinishTx(dk, o) => FinishDated(a, dk, o, now);
      case ClassifyTx(rows, olderThan) => StaleRows(a, rows, now, olderThan); ClassifyDated(a, rows, now);
    }
  }

  lemma SameDated(a: Db, b: Db)
    requires AllDated(a) && b.deliveries == a.deliveries
    ensures AllDated(b)
  {
  }

  /** Whatever the clocks did, no reachable state holds a delivery that was missed or attempted
      before its deadline. */
  lemma {:induction false} NothingBeforeItsTime(run: seq<World>, steps: seq<Step>, i: nat)
    requires Run(run, steps) && i < |run|
    ensures AllDated(run[i].db)
    decreases i
  {
    hide StoreInv, HistoryInv, WorkerInv, Next, Commits, TxOf;
    if i > 0 {
      NothingBeforeItsTime(run, steps, i - 1);
      Safety(run, steps, i - 1);
      assert Next(run[i - 1], run[i], steps[i - 1]);
      StepCommits(run[i - 1], run[i], steps[i - 1]);
      match TxOf(run[i - 1], steps[i - 1])
      case Some(p) => TxDated(run[i - 1].db, run[i].db, p.0, p.1);
      case None =>
    }
  }
}

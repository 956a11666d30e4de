/** The whole system as a state machine: the store, the task queue, the workers between their
    two transactions, and what has happened so far. Runs interleave every transaction of the
    HTTP handlers and the jobs with lost and repeated tasks and with crashes at any point. */
module Protocol {
  import opened Prelude
  import opened Storage
  import opened Reconciliation
  import opened Progress
  import opened Invariants
  import opened Lineage
  import opened Store
  import opened Reminders
  import opened Transactions
  import opened Effects
  import C = SeriesCreation
  import SR = SplitResults
  import G = Segments
  import R = ReminderJobs

  /** A worker whose authorization has committed: about to send, or sent and about to report. */
  datatype Phase = Ready | Done(outcome: Outcome)
  datatype Worker = Worker(delivery: DeliveryKey, email: Email, phase: Phase)

  /** The last four fields are history: authorizations committed, emails handed to SMTP, results
      recorded, and claim tokens drawn. */
  datatype World = World(
    db: Db, tasks: multiset<R.Task>, workers: map<int, Worker>,
    authorized: multiset<DeliveryKey>, sends: multiset<DeliveryKey>, finals: multiset<DeliveryKey>,
    tokens: set<Token>)

  datatype Step =
    // any handler, the purge and the other maintenance
    | Transact(tx: Tx, now: Time)
    // a committed scan batch; some of its tasks may never be enqueued
    | Scan(terms: Terms, drawn: map<DeliveryKey, Token>, enqueued: multiset<R.Task>)
    | LoseTask(task: R.Task)
    | RepeatTask(task: R.Task)
    // deliver: the first transaction, the SMTP call, the second transaction
    | Authorize1(worker: int, task: R.Task, now: Time, grace: Time, recipient: string)
    | Send(worker: int, outcome: Outcome)
    | RejectAddress(worker: int)
    | Report(worker: int, now: Time)
    | Crash(worker: int)
    | ClassifyUnknown(rows: seq<DeliveryKey>, olderThan: Time, now: Time)

  predicate HandlerTx(tx: Tx) {
    !tx.ClaimTx? && !tx.AuthorizeTx? && !tx.FinishTx? && !tx.ClassifyTx?
  }

  /** The tokens are new and differ from one another (uuid4). */
  ghost predicate FreshDraw(used: set<Token>, drawn: map<DeliveryKey, Token>) {
    && (forall dk :: dk in drawn ==> drawn[dk] !in used)
    && (forall x, y :: x in drawn && y in drawn && drawn[x] == drawn[y] ==> x == y)
  }

  /** The rows that a scan claims rather than misses, with their tokens. */
  function Claims(db: Db, t: Terms, drawn: map<DeliveryKey, Token>): map<DeliveryKey, Token> {
    map dk | dk in drawn && dk in db.deliveries && !Late(db.deliveries[dk], t.now, t.grace) :: drawn[dk]
  }

  ghost predicate Next(w: World, w': World, step: Step) {
    match step
    case Transact(tx, now) =>
      HandlerTx(tx) && Commits(w.db, w'.db, tx, now) && w' == w.(db := w'.db)
    case Scan(t, drawn, enqueued) =>
      && Commits(w.db, w'.db, ClaimTx(t, drawn), t.now)
      && var claims := Claims(w.db, t, drawn);
      && FreshDraw(w.tokens, claims)
      && (forall x :: x in enqueued ==> x.delivery in claims && x.token == claims[x.delivery])
      && w' == w.(db := w'.db, tasks := w.tasks + enqueued, tokens := w.tokens + claims.Values)
    case LoseTask(task) => task in w.tasks && w' == w.(tasks := w.tasks - multiset{task})
    case RepeatTask(task) => task in w.tasks && w' == w.(tasks := w.tasks + multiset{task})
    case Authorize1(id, task, now, grace, recipient) =>
      && task in w.tasks && id !in w.workers
      && w'.db == Authorize(w.db, task.delivery, task.token, now, grace, recipient)
      && (match AuthorizedEmail(w.db, task.delivery, task.token, now, grace, recipient)
          case None => w' == w.(db := w'.db, tasks := w.tasks - multiset{task})
          case Some(email) =>
            w' == w.(db := w'.db, tasks := w.tasks - multiset{task},
                     workers := w.workers[id := Worker(task.delivery, email, Ready)],
                     authorized := w.authorized + multiset{task.delivery}))
    case Send(id, o) =>
      && id in w.workers && w.workers[id].phase.Ready? && !o.BadAddress?
      && ValidRecipient(w.workers[id].email.recipient)
      && w' == w.(workers := w.workers[id := w.workers[id].(phase := Done(o))],
                  sends := w.sends + multiset{w.workers[id].delivery})
    case RejectAddress(id) =>
      && id in w.workers && w.workers[id].phase.Ready? && !ValidRecipient(w.workers[id].email.recipient)
      && w' == w.(workers := w.workers[id := w.workers[id].(phase := Done(BadAddress))])
    case Report(id, now) =>
      && id in w.workers && w.workers[id].phase.Done?
      && var dk := w.workers[id].delivery;
      && Commits(w.db, w'.db, FinishTx(dk, w.workers[id].phase.outcome), now)
      && w' == w.(db := w'.db, workers := w.workers - {id},
                  finals := w.finals + if w.db.deliveries[dk].state.AttemptStarted? then multiset{dk} else multiset{})
    case Crash(id) => id in w.workers && w' == w.(workers := w.workers - {id})
    case ClassifyUnknown(rows, olderThan, now) =>
      && Commits(w.db, w'.db, ClassifyTx(rows, olderThan), now)
      && w' == w.(db := w'.db, finals := w.finals + multiset(Elements(rows)))
  }

  function Blank(tags: map<TagId, int>): Db {
    Db(map[], map[], map[], map[], map[], map[], {}, map[], {}, {}, {}, tags, [])
  }

  predicate Init(w: World) {
    w == World(Blank(w.db.tags), multiset{}, map[], multiset{}, multiset{}, multiset{}, {})
  }

  ghost predicate Run(run: seq<World>, steps: seq<Step>) {
    && |run| == |steps| + 1 && Init(run[0])
    && (forall i :: 0 <= i < |steps| ==> Next(run[i], run[i + 1], steps[i]))
  }

  // ---------- the invariant ----------

  function AttemptedKeys(db: Db): set<DeliveryKey> {
    set dk | dk in db.deliveries && Attempted(db.deliveries[dk])
  }

  function FinishedKeys(db: Db): set<DeliveryKey> {
    set dk | dk in db.deliveries && Finished(db.deliveries[dk])
  }

  /** Every attempt was authorized once and every result recorded once. */
  ghost predicate HistoryInv(w: World) {
    w.authorized == multiset(AttemptedKeys(w.db)) && w.finals == multiset(FinishedKeys(w.db))
  }

  /** Each authorization has at most one worker, and that worker sends at most once. */
  ghost predicate WorkerInv(w: World) {
    && (forall i :: i in w.workers ==> w.workers[i].delivery in w.authorized)
    && (forall i, j :: i in w.workers && j in w.workers && w.workers[i].delivery == w.workers[j].delivery ==> i == j)
    && (forall i :: i in w.workers && w.workers[i].phase.Ready? ==> w.workers[i].delivery !in w.sends)
    && (forall dk :: dk in w.sends ==> dk in w.authorized && w.sends[dk] == 1)
  }

  ghost predicate WorldInv(w: World) {
    StoreInv(w.db) && HistoryInv(w) && WorkerInv(w)
  }

  lemma InitInv(w: World)
    requires Init(w)
    ensures WorldInv(w)
  {
    var rank: map<SeriesId, nat> := map[];
    assert Ranked(w.db.series, rank);
  }

  // ---------- one step ----------

  lemma SameHistory(a: Db, b: Db)
    requires DeliveriesAdvance(a, b) && SameAttempts(a, b)
    ensures AttemptedKeys(b) == AttemptedKeys(a) && FinishedKeys(b) == FinishedKeys(a)
  {
  }

  lemma AuthorizeAttempts(a: Db, dk: DeliveryKey, token: Token, now: Time, grace: Time, recipient: string)
    ensures var b := Authorize(a, dk, token, now, grace, recipient);
            if Judge(a, dk, token, now, grace).Authorized?
            then dk !in AttemptedKeys(a) && AttemptedKeys(b) == AttemptedKeys(a) + {dk}
              && FinishedKeys(b) == FinishedKeys(a)
            else AttemptedKeys(b) == AttemptedKeys(a) && FinishedKeys(b) == FinishedKeys(a)
  {
    hide AttemptedKeys, FinishedKeys, PutDelivery, AuthorizedDb, Released;
    match Judge(a, dk, token, now, grace)
    case Ignored =>
    case Authorized => AuthorizedAttempt(a, dk, now, recipient);
    case Withdrawn =>
      NotAttempted(a.deliveries[dk], now);
      PutUnattempted(a, dk, Released(a.deliveries[dk], Cancelled, Some(now)));
    case Early =>
      NotAttempted(a.deliveries[dk], now);
      PutUnattempted(a, dk, Released(a.deliveries[dk], Pending, None));
    case TooLate =>
      NotAttempted(a.deliveries[dk], now);
      PutUnattempted(a, dk, Released(a.deliveries[dk], Missed, Some(now)));
  }

  lemma NotAttempted(d: Delivery, now: Time)
    ensures !Attempted(Released(d, Cancelled, Some(now))) && !Attempted(Released(d, Pending, None))
    ensures !Attempted(Released(d, Missed, Some(now)))
  {
  }

  lemma PutUnattempted(a: Db, dk: DeliveryKey, d: Delivery)
    requires dk in a.deliveries && !Attempted(a.deliveries[dk]) && !Attempted(d)
    ensures AttemptedKeys(PutDelivery(a, dk, d)) == AttemptedKeys(a)
    ensures FinishedKeys(PutDelivery(a, dk, d)) == FinishedKeys(a)
  {
  }

  lemma AuthorizedAttempt(a: Db, dk: DeliveryKey, now: Time, recipient: string)
    requires dk in a.deliveries && dk.rule.note in a.notes && a.deliveries[dk].state.Claimed?
    ensures var b := AuthorizedDb(a, dk, now, recipient);
            dk !in AttemptedKeys(a) && AttemptedKeys(b) == AttemptedKeys(a) + {dk} && FinishedKeys(b) == FinishedKeys(a)
  {
  }

  lemma FinishAttempts(a: Db, dk: DeliveryKey, o: Outcome, now: Time)
    requires dk in a.deliveries && (a.deliveries[dk].state.AttemptStarted? ==> dk in a.notifications)
    ensures var b := RecordOutcome(a, dk, o, now);
            && AttemptedKeys(b) == AttemptedKeys(a)
            && FinishedKeys(b) == FinishedKeys(a) + (if a.deliveries[dk].state.AttemptStarted? then {dk} else {})
            && (a.deliveries[dk].state.AttemptStarted? ==> dk !in FinishedKeys(a))
  {
    hide MarkFailure;
    var b := RecordOutcome(a, dk, o, now);
    forall x: DeliveryKey
      ensures x in AttemptedKeys(b) <==> x in AttemptedKeys(a)
      ensures x in FinishedKeys(b) <==> x in FinishedKeys(a) || (x == dk && a.deliveries[dk].state.AttemptStarted?)
    {
    }
  }

  lemma ClassifyAttempts(a: Db, rows: seq<DeliveryKey>, now: Time)
    requires forall dk :: dk in rows ==> dk in a.deliveries && a.deliveries[dk].state.AttemptStarted?
    ensures var b := Classify(a, rows, now);
            && AttemptedKeys(b) == AttemptedKeys(a) && FinishedKeys(b) == FinishedKeys(a) + Elements(rows)
            && Elements(rows) !! FinishedKeys(a)
  {
  }

  lemma Added(s: set<DeliveryKey>, t: set<DeliveryKey>)
    requires s !! t
    ensures multiset(s + t) == multiset(s) + multiset(t)
  {
  }

  /** The transaction that a step commits, if it commits one. */
  function TxOf(w: World, step: Step): Option<(Tx, Time)> {
    match step
    case Transact(tx, now) => Some((tx, now))
    case Scan(t, drawn, _) => Some((ClaimTx(t, drawn), t.now))
    case Authorize1(_, task, now, grace, recipient) => Some((AuthorizeTx(task, grace, recipient), now))
    case Report(id, now) =>
      if id in w.workers && w.workers[id].phase.Done?
      then Some((FinishTx(w.workers[id].delivery, w.workers[id].phase.outcome), now)) else None
    case ClassifyUnknown(rows, olderThan, now) => Some((ClassifyTx(rows, olderThan), now))
    case _ => None
  }

  /** Every step commits one transaction or leaves the store alone. */
  lemma StepCommits(w: World, w': World, step: Step)
    requires Next(w, w', step)
    ensures match TxOf(w, step)
            case Some(p) => Commits(w.db, w'.db, p.0, p.1)
            case None => w'.db == w.db
  {
    hide Commits;
    if step.Authorize1? { AuthorizeCommits(w.db, step.task, step.now, step.grace, step.recipient); }
  }

  lemma AuthorizeCommits(a: Db, task: R.Task, now: Time, grace: Time, recipient: string)
    ensures Commits(a, Authorize(a, task.delivery, task.token, now, grace, recipient),
                    AuthorizeTx(task, grace, recipient), now)
  {
  }

  lemma StepStore(w: World, w': World, step: Step)
    requires StoreInv(w.db) && Next(w, w', step)
    ensures Keeps(w.db, w'.db)
  {
    hide StoreInv, Commits, Next, Advances, TxOf;
    StepCommits(w, w', step);
    match TxOf(w, step)
    case Some(p) => TxKeeps(w.db, w'.db, p.0, p.1);
    case None => AdvancesReflexive(w.db);
  }

  lemma StepHistory(w: World, w': World, step: Step)
    requires StoreInv(w.db) && HistoryInv(w) && Next(w, w', step)
    ensures HistoryInv(w')
  {
    hide StoreInv, HistoryInv, Next;
    if step.Transact? { HandlerHistory(w, w', step.tx, step.now); }
    else if step.Scan? { ScanHistory(w, w', step); }
    else if step.Authorize1? { AuthorizeHistory(w, w', step); }
    else if step.Report? { ReportHistory(w, w', step); }
    else if step.ClassifyUnknown? { ClassifyHistory(w, w', step); }
    else { NoHistory(w, w', step); }
  }

  lemma NoHistory(w: World, w': World, step: Step)
    requires HistoryInv(w) && Next(w, w', step)
    requires step.LoseTask? || step.RepeatTask? || step.Send? || step.RejectAddress? || step.Crash?
    ensures HistoryInv(w')
  {
    hide AttemptedKeys, FinishedKeys;
  }

  lemma ReportHistory(w: World, w': World, step: Step)
    requires HistoryInv(w) && Next(w, w', step) && step.Report?
    ensures HistoryInv(w')
  {
    hide RecordOutcome, AttemptedKeys, FinishedKeys;
    var dk := w.workers[step.worker].delivery;
    FinishAttempts(w.db, dk, w.workers[step.worker].phase.outcome, step.now);
    if w.db.deliveries[dk].state.AttemptStarted? { Added(FinishedKeys(w.db), {dk}); }
  }

  lemma ClassifyHistory(w: World, w': World, step: Step)
    requires HistoryInv(w) && Next(w, w', step) && step.ClassifyUnknown?
    ensures HistoryInv(w')
  {
    hide Classify, AttemptedKeys, FinishedKeys, R.StaleKeys;
    StaleRows(w.db, step.rows, step.now, step.olderThan);
    ClassifyAttempts(w.db, step.rows, step.now);
    Added(FinishedKeys(w.db), Elements(step.rows));
  }

  lemma HandlerHistory(w: World, w': World, tx: Tx, now: Time)
    requires StoreInv(w.db) && HistoryInv(w) && Next(w, w', Transact(tx, now))
    ensures HistoryInv(w')
  {
    hide StoreInv, Commits, AttemptedKeys, FinishedKeys, SameAttempts;
    TxKeeps(w.db, w'.db, tx, now);
    TxAttempts(w.db, w'.db, tx, now);
    SameHistory(w.db, w'.db);
  }

  lemma ScanHistory(w: World, w': World, step: Step)
    requires StoreInv(w.db) && HistoryInv(w) && Next(w, w', step) && step.Scan?
    ensures HistoryInv(w')
  {
    hide StoreInv, AttemptedKeys, FinishedKeys, SameAttempts, ClaimBatch, ClaimableKeys;
    ClaimStep(w.db, step.terms, step.drawn);
    ClaimAttempts(w.db, step.terms, step.drawn);
    SameHistory(w.db, w'.db);
  }

  lemma AuthorizeHistory(w: World, w': World, step: Step)
    requires HistoryInv(w) && Next(w, w', step) && step.Authorize1?
    ensures HistoryInv(w')
  {
    hide Authorize, AttemptedKeys, FinishedKeys;
    var task := step.task;
    AuthorizeAttempts(w.db, task.delivery, task.token, step.now, step.grace, step.recipient);
    Added(AttemptedKeys(w.db), {task.delivery} - AttemptedKeys(w.db));
  }

  lemma SameWorkers(w: World, w': World)
    requires WorkerInv(w) && w'.workers == w.workers && w'.authorized == w.authorized && w'.sends == w.sends
    ensures WorkerInv(w')
  {
  }

  lemma FewerWorkers(w: World, w': World, id: int)
    requires WorkerInv(w) && w'.workers == w.workers - {id} && w'.authorized == w.authorized && w'.sends == w.sends
    ensures WorkerInv(w')
  {
  }

  lemma NewWorker(w: World, w': World, id: int, email: Email, dk: DeliveryKey)
    requires WorkerInv(w) && dk !in w.authorized && w'.workers == w.workers[id := Worker(dk, email, Ready)]
    requires w'.authorized == w.authorized + multiset{dk} && w'.sends == w.sends
    ensures WorkerInv(w')
  {
  }

  lemma WorkerActs(w: World, w': World, step: Step)
    requires WorkerInv(w) && Next(w, w', step) && (step.Send? || step.RejectAddress?)
    ensures WorkerInv(w')
  {
    hide Commits, Authorize, AuthorizedEmail, ValidRecipient, Claims;
  }

  lemma StepWorkers(w: World, w': World, step: Step)
    requires HistoryInv(w) && WorkerInv(w) && Next(w, w', step)
    ensures WorkerInv(w')
  {
    hide Commits, Authorize, HistoryInv, WorkerInv, AuthorizedEmail;
    match step
    case Authorize1(id, task, now, grace, recipient) =>
      match AuthorizedEmail(w.db, task.delivery, task.token, now, grace, recipient) {
        case None => SameWorkers(w, w');
        case Some(email) => NewWorker(w, w', id, email, task.delivery) by { Grown(w, w', step); }
      }
    case Send(_, _) => WorkerActs(w, w', step);
    case RejectAddress(_) => WorkerActs(w, w', step);
    case Report(id, _) => FewerWorkers(w, w', id);
    case Crash(id) => FewerWorkers(w, w', id);
    case _ => SameWorkers(w, w');
  }

  lemma Grown(w: World, w': World, step: Step)
    requires HistoryInv(w) && Next(w, w', step) && step.Authorize1?
    requires AuthorizedEmail(w.db, step.task.delivery, step.task.token, step.now, step.grace, step.recipient).Some?
    ensures step.task.delivery !in w.authorized
  {
    hide Authorize, AttemptedKeys, FinishedKeys;
    AuthorizeAttempts(w.db, step.task.delivery, step.task.token, step.now, step.grace, step.recipient);
  }

  lemma StepKeeps(w: World, w': World, step: Step)
    requires WorldInv(w) && Next(w, w', step)
    ensures WorldInv(w') && Advances(w.db, w'.db)
  {
    hide StoreInv, HistoryInv, WorkerInv, Next, Advances;
    StepStore(w, w', step);
    StepHistory(w, w', step);
    StepWorkers(w, w', step);
  }

  // ---------- whole runs ----------

  /** In every reachable state the invariants of the store and of the protocol hold. */
  lemma {:induction false} Safety(run: seq<World>, steps: seq<Step>, i: nat)
    requires Run(run, steps) && i < |run|
    ensures WorldInv(run[i])
    decreases i
  {
    hide WorldInv, Init, Next;
    if i == 0 { InitInv(run[0]); }
    else {
      Safety(run, steps, i - 1);
      StepKeeps(run[i - 1], run[i], steps[i - 1]);
    }
  }

  /** Nothing that must stand is ever undone, over any stretch of a run. */
  lemma {:induction false} Forwards(run: seq<World>, steps: seq<Step>, i: nat, j: nat)
    requires Run(run, steps) && i <= j < |run|
    ensures Advances(run[i].db, run[j].db)
    decreases j
  {
    hide WorldInv, Init, Next, Advances;
    if i == j { AdvancesReflexive(run[i].db); }
    else {
      Forwards(run, steps, i, j - 1);
      Safety(run, steps, j - 1);
      StepKeeps(run[j - 1], run[j], steps[j - 1]);
      AdvancesTransitive(run[i].db, run[j - 1].db, run[j].db);
    }
  }

  /** No reachable state holds a row with the marker of the retired trash scheme, so the legacy
      branches of the handlers are never taken. */
  lemma {:induction false} NoLegacyEver(run: seq<World>, steps: seq<Step>, i: nat)
    requires Run(run, steps) && i < |run|
    ensures NoLegacyTrash(run[i].db)
    decreases i
  {
    hide StoreInv, HistoryInv, WorkerInv, Next, Commits, TxOf;
    if i > 0 {
      NoLegacyEver(run, steps, i - 1);
      Safety(run, steps, i - 1);
      assert Next(run[i - 1], run[i], steps[i - 1]);
      StepCommits(run[i - 1], run[i], steps[i - 1]);
      match TxOf(run[i - 1], steps[i - 1])
      case Some(p) => TxMarksNothing(run[i - 1].db, run[i].db, p.0, p.1);
      case None =>
    }
  }

  /** At most one email leaves for a delivery, whatever is lost, repeated or crashes, and only
      after its authorization committed. */
  lemma AtMostOneEmail(run: seq<World>, steps: seq<Step>, i: nat, dk: DeliveryKey)
    requires Run(run, steps) && i < |run|
    ensures run[i].sends[dk] <= 1 && run[i].authorized[dk] <= 1
    ensures run[i].sends[dk] == 1 ==> dk in run[i].db.deliveries && Attempted(run[i].db.deliveries[dk])
  {
    hide StoreInv, Init, Next;
    Safety(run, steps, i);
  }

  /** One finalizer writes the result of an attempt, the worker or the classifier, and what it
      wrote stays. */
  lemma OneFinalizer(run: seq<World>, steps: seq<Step>, i: nat, j: nat, dk: DeliveryKey)
    requires Run(run, steps) && i <= j < |run|
    ensures run[i].finals[dk] <= 1
    ensures run[i].finals[dk] == 1 ==>
              && dk in run[i].db.deliveries && dk in run[j].db.deliveries && run[j].finals[dk] == 1
              && Finished(run[i].db.deliveries[dk])
              && var d, d' := run[i].db.deliveries[dk], run[j].db.deliveries[dk];
              d'.state == d.state && d'.resultAt == d.resultAt && d'.errorCode == d.errorCode
  {
    hide StoreInv, Init, Next;
    Safety(run, steps, i);
    Safety(run, steps, j);
    Forwards(run, steps, i, j);
  }

  /** A delivery that was attempted can never be claimed, authorized or sent for again. */
  lemma NeverClaimableAgain(run: seq<World>, steps: seq<Step>, i: nat, j: nat, dk: DeliveryKey, now: Time)
    requires Run(run, steps) && i <= j < |run|
    requires dk in run[i].db.deliveries && Attempted(run[i].db.deliveries[dk])
    ensures dk in run[j].db.deliveries && Attempted(run[j].db.deliveries[dk])
            && !Claimable(run[j].db.deliveries[dk], now)
    ensures forall token, grace :: !Judge(run[j].db, dk, token, now, grace).Authorized?
  {
    hide StoreInv, Init, Next;
    Forwards(run, steps, i, j);
  }

  /** The step hands an email to a worker. */
  ghost predicate Authorizes(run: seq<World>, steps: seq<Step>, i: nat)
    requires |run| == |steps| + 1 && i < |steps|
  {
    steps[i].Authorize1? && run[i + 1].workers != run[i].workers
  }

  /** Every authorized email belongs to a live note with the rule enabled, the cycle current and
      the deadline of the schedule then in force inside the grace window; so whatever cancelled
      or moved the reminder in an earlier commit has won. */
  lemma EmailsAreDue(run: seq<World>, steps: seq<Step>, i: nat)
    requires Run(run, steps) && i < |steps| && Authorizes(run, steps, i)
    ensures var s, db := steps[i], run[i].db; var dk := s.task.delivery;
            && Deliverable(db, dk) && dk in db.deliveries
            && db.deliveries[dk].state.Claimed? && db.deliveries[dk].claimToken == Some(s.task.token)
            && s.now - s.grace <= DueAt(db.notes[dk.rule.note].startsAt, dk.rule.offset) <= s.now
    ensures var s, db := steps[i], run[i].db; var note := db.notes[s.task.delivery.rule.note];
            run[i + 1].workers == run[i].workers[s.worker :=
              Worker(s.task.delivery, Email(s.recipient, "Reminder: " + note.title, note.body, s.task.delivery), Ready)]
  {
    hide SlotInv, TrashInv, LineageInv, RedactionInv, HistoryInv, WorkerInv, Authorize, ReminderInv;
    var s, w := steps[i], run[i];
    Safety(run, steps, i);
    assert Next(w, run[i + 1], s);
    EmailIsDue(w.db, s.task.delivery, s.task.token, s.now, s.grace, s.recipient);
  }

  /** Once a rule has moved on to a later cycle, no delivery of an earlier one is authorized. */
  lemma SupersededCyclesStaySilent(run: seq<World>, steps: seq<Step>, i: nat, j: nat, dk: DeliveryKey)
    requires Run(run, steps) && i <= j < |steps|
    requires dk.rule in run[i].db.rules && dk.cycle < run[i].db.rules[dk.rule].cycle
    ensures Authorizes(run, steps, j) ==> steps[j].task.delivery != dk
  {
    hide StoreInv, Init, Next;
    Forwards(run, steps, i, j);
    if Authorizes(run, steps, j) { EmailsAreDue(run, steps, j); }
  }

  /** A closed trash action never reopens, and what is purged is never written again. */
  lemma ClosedAndPurgedForGood(run: seq<World>, steps: seq<Step>, i: nat, j: nat)
    requires Run(run, steps) && i <= j < |run|
    ensures forall x :: x in run[i].db.actions && Closed(run[i].db, x) ==>
              x in run[j].db.actions && Closed(run[j].db, x)
    ensures forall x :: x in run[i].db.actions ==> (OpenAction(run[j].db, x) <==> !Closed(run[j].db, x))
    ensures forall n :: Purged(run[i].db, n) ==> Purged(run[j].db, n) && run[j].db.notes[n] == run[i].db.notes[n]
    ensures forall s :: SeriesPurged(run[i].db, s) ==>
              SeriesPurged(run[j].db, s) && run[j].db.series[s] == run[i].db.series[s]
    ensures RedactionInv(run[j].db)
  {
    hide ReminderInv, SlotInv, LineageInv, RedactionInv, TrashInv, Init, Next, HistoryInv, WorkerInv, DeliveriesAdvance;
    Safety(run, steps, j);
    Forwards(run, steps, i, j);
    forall x | x in run[i].db.actions ensures x in run[j].db.actions && (Closed(run[i].db, x) ==> Closed(run[j].db, x))
                                      ensures OpenAction(run[j].db, x) <==> !Closed(run[j].db, x) {
      assert ActionAdvances(run[i].db, run[j].db, x);
      OpenOrClosed(run[j].db, x);
    }
    forall n | Purged(run[i].db, n) ensures Purged(run[j].db, n) && run[j].db.notes[n] == run[i].db.notes[n] {
      assert NoteAdvances(run[i].db.notes[n], run[j].db.notes[n]);
    }
    forall s | SeriesPurged(run[i].db, s)
      ensures SeriesPurged(run[j].db, s) && run[j].db.series[s] == run[i].db.series[s]
    {
      assert SeriesRowAdvances(run[i].db.series[s], run[j].db.series[s]);
    }
  }

  // ---------- tokens ----------

  /** The delivery is not held by any of the tokens in `old_`. */
  predicate HeldByNone(db: Db, dk: DeliveryKey, old_: set<Token>) {
    dk in db.deliveries && db.deliveries[dk].state.Claimed? ==>
      db.deliveries[dk].claimToken.Some? && db.deliveries[dk].claimToken.value !in old_
  }

  lemma ScanTokens(w: World, w': World, step: Step, dk: DeliveryKey, old_: set<Token>)
    requires Next(w, w', step) && step.Scan? && old_ <= w.tokens
    requires HeldByNone(w.db, dk, old_) || dk in step.drawn
    ensures HeldByNone(w'.db, dk, old_)
  {
    hide ClaimableKeys;
    var claims := Claims(w.db, step.terms, step.drawn);
    assert dk in claims ==> claims[dk] !in old_;
  }

  lemma StepTokens(w: World, w': World, step: Step, dk: DeliveryKey, old_: set<Token>)
    requires StoreInv(w.db) && Next(w, w', step) && old_ <= w.tokens && HeldByNone(w.db, dk, old_)
    ensures HeldByNone(w'.db, dk, old_) && old_ <= w'.tokens
  {
    hide StoreInv, Commits, TxOf;
    if step.Scan? { ScanTokens(w, w', step, dk, old_); }
    else {
      StepCommits(w, w', step);
      match TxOf(w, step)
      case Some(p) => NotAClaim(w, w', step); TxClaims(w.db, w'.db, p.0, p.1);
      case None =>
    }
  }

  lemma NotAClaim(w: World, w': World, step: Step)
    requires !step.Scan? && TxOf(w, step).Some? && Next(w, w', step)
    ensures !TxOf(w, step).value.0.ClaimTx?
  {
  }

  /** Once a delivery has been claimed again, no task of an earlier claim can authorize it,
      however late the queue hands it out. */
  lemma {:induction false} OldTasksAreIgnored(run: seq<World>, steps: seq<Step>, i: nat, j: nat, dk: DeliveryKey)
    requires Run(run, steps) && i < j < |run| && steps[i].Scan? && dk in steps[i].drawn
    ensures HeldByNone(run[j].db, dk, run[i].tokens) && run[i].tokens <= run[j].tokens
    ensures forall token, now, grace :: token in run[i].tokens ==> !Judge(run[j].db, dk, token, now, grace).Authorized?
    decreases j
  {
    hide StoreInv, HistoryInv, WorkerInv, Next;
    assert Next(run[j - 1], run[j], steps[j - 1]);
    if j == i + 1 { ScanTokens(run[i], run[j], steps[i], dk, run[i].tokens); TokensGrow(run[i], run[j], steps[i]); }
    else {
      OldTasksAreIgnored(run, steps, i, j - 1, dk);
      Safety(run, steps, j - 1);
      StepTokens(run[j - 1], run[j], steps[j - 1], dk, run[i].tokens);
    }
  }

  lemma TokensGrow(w: World, w': World, step: Step)
    requires Next(w, w', step)
    ensures w.tokens <= w'.tokens
  {
    hide Commits;
  }

  // ---------- runs with a clock that does not run backwards ----------

  function StepTime(step: Step): Option<Time> {
    match step
    case Transact(_, now) => Some(now)
    case Scan(t, _, _) => Some(t.now)
    case Authorize1(_, _, now, _, _) => Some(now)
    case Report(_, now) => Some(now)
    case ClassifyUnknown(_, _, now) => Some(now)
    case _ => None
  }

  /** `clock[i]` is the latest time read before state i. */
  ghost predicate Clocked(steps: seq<Step>, clock: seq<Time>) {
    && |clock| == |steps| + 1
    && (forall i :: 0 <= i < |steps| ==>
          clock[i] <= clock[i + 1] && (StepTime(steps[i]).Some? ==> StepTime(steps[i]).value == clock[i + 1]))
  }

  lemma StepOnTime(w: World, w': World, step: Step, clock: Time, now: Time)
    requires StoreInv(w.db) && Next(w, w', step) && OnTime(w.db, clock) && clock <= now
    requires StepTime(step).Some? ==> StepTime(step).value == now
    ensures OnTime(w'.db, now)
  {
    hide StoreInv, Commits, Next, OnTime;
    StepCommits(w, w', step);
    match TxOf(w, step)
    case Some(p) => TimeOf(w, step); TxOnTime(w.db, w'.db, p.0, clock, p.1);
    case None => LaterOnTime(w.db, clock, now);
  }

  lemma TimeOf(w: World, step: Step)
    ensures TxOf(w, step).Some? ==> StepTime(step) == Some(TxOf(w, step).value.1)
  {
  }

  lemma LaterOnTime(db: Db, clock: Time, now: Time)
    requires OnTime(db, clock) && clock <= now
    ensures OnTime(db, now)
  {
  }

  /** While clocks do not run backwards, no reachable state holds a delivery that was claimed or
      written off before its deadline. */
  lemma {:induction false} RunOnTime(run: seq<World>, steps: seq<Step>, clock: seq<Time>, i: nat)
    requires Run(run, steps) && Clocked(steps, clock) && i < |run|
    ensures OnTime(run[i].db, clock[i])
    decreases i
  {
    hide StoreInv, HistoryInv, WorkerInv, Next, OnTime;
    if i == 0 { BlankOnTime(run[0].db.tags, clock[0]); }
    else {
      RunOnTime(run, steps, clock, i - 1);
      Safety(run, steps, i - 1);
      StepOnTime(run[i - 1], run[i], steps[i - 1], clock[i - 1], clock[i]);
    }
  }

  /** While clocks do not run backwards, every enabled reminder of a live note whose deadline is
      ahead is pending and due at that deadline, in every reachable state: whatever deactivated,
      trashed, moved or restored the note before, its reminder is armed again. */
  lemma FutureRemindersAreArmed(run: seq<World>, steps: seq<Step>, clock: seq<Time>, i: nat, n: NoteId, offset: int)
    requires Run(run, steps) && Clocked(steps, clock) && i < |run| && n in run[i].db.notes
    requires var note := run[i].db.notes[n];
             note.active && note.deletedAt.None? && note.supersededAt.None? && note.purgedAt.None?
             && note.startsAt - offset * MINUTE > clock[i]
    requires RuleKey(n, offset) in run[i].db.rules && run[i].db.rules[RuleKey(n, offset)].enabled
    ensures Armed(run[i].db, n, offset)
  {
    hide SlotInv, TrashInv, LineageInv, RedactionInv, ReminderInv, HistoryInv, WorkerInv, Next, OnTime;
    Safety(run, steps, i);
    RunOnTime(run, steps, clock, i);
    AheadIsArmed(run[i].db, clock[i], n, offset);
  }

  lemma BlankOnTime(tags: map<TagId, int>, clock: Time)
    ensures OnTime(Blank(tags), clock)
  {
  }

  // ---------- runs whose splits all go forward ----------

  ghost predicate ForwardStep(step: Step) {
    (step.Transact? && step.tx.SplitTx? && C.WellTyped(step.tx.request.fields)
     && C.Generated(step.tx.e, step.tx.request.fields).Some?) ==> G.Forward(CutOf(step.tx, step.now))
  }

  lemma TxKeepsOrder(a: Db, b: Db, tx: Tx, now: Time)
    requires StoreInv(a) && Commits(a, b, tx, now) && G.OrderedSegments(a)
    requires tx.SplitTx? && C.WellTyped(tx.request.fields) && C.Generated(tx.e, tx.request.fields).Some? ==>
               G.Forward(CutOf(tx, now))
    ensures G.OrderedSegments(b)
  {
    hide ReminderInv, SlotInv, TrashInv, LineageInv, RedactionInv, Commits, G.OrderedSegments, G.KeepsPlaces, G.Forward,
         C.Generated;
    if tx.SplitTx? {
      SplitFacts(a, b, tx, now);
      G.ForwardKeepsOrder(a, tx.e, CutOf(tx, now), tx.slots);
    } else {
      TxPlaces(a, b, tx, now);
      G.PlacesKeepOrder(a, b);
    }
  }

  lemma StepKeepsOrder(w: World, w': World, step: Step)
    requires StoreInv(w.db) && Next(w, w', step) && ForwardStep(step) && G.OrderedSegments(w.db)
    ensures G.OrderedSegments(w'.db)
  {
    hide StoreInv, Commits, Next, G.OrderedSegments, G.Forward, C.Generated;
    StepCommits(w, w', step);
    match TxOf(w, step)
    case None =>
    case Some(p) => TxKeepsOrder(w.db, w'.db, p.0, p.1);
  }

  /** If every split so far started at or after the occurrence it replaced, the keys of the
      segments of every lineage lie in disjoint ordered intervals and none repeats. */
  lemma {:induction false} ForwardRunsKeepKeysUnique(run: seq<World>, steps: seq<Step>, i: nat, lineage: SeriesId)
    requires Run(run, steps) && i < |run| && forall k :: 0 <= k < i ==> ForwardStep(steps[k])
    ensures G.OrderedSegments(run[i].db) && SR.KeysUnique(run[i].db, lineage)
    decreases i
  {
    hide StoreInv, HistoryInv, WorkerInv, Next, G.OrderedSegments, SR.KeysUnique, ForwardStep;
    if i == 0 { NoSegments(run[0].db.tags); }
    else {
      ForwardRunsKeepKeysUnique(run, steps, i - 1, lineage);
      Safety(run, steps, i - 1);
      StepKeepsOrder(run[i - 1], run[i], steps[i - 1]);
    }
    Safety(run, steps, i);
    G.SegmentsAreDisjoint(run[i].db, lineage);
  }

  lemma NoSegments(tags: map<TagId, int>)
    ensures G.OrderedSegments(Blank(tags))
  {
  }
}

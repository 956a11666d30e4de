/** A run that leaves a purge which cannot commit: the worker of a delivery dies during its
    attempt, the note is deleted, and the trash expires before the classifier has run. */
module LostWorker {
  import opened Prelude
  import opened Storage
  import opened Reconciliation
  import opened Progress
  import opened Invariants
  import opened Store
  import opened Api
  import opened Notes
  import opened NoteHandlers
  import opened SaveResults
  import opened Reminders
  import opened Maintenance
  import opened Transactions
  import opened Effects
  import opened Protocol
  import R = ReminderJobs

  /** A call at 660 s with a reminder ten minutes before, and its only delivery. */
  const CALL := NoteFields("call", "", 660 * SECOND, true, {}, {10})
  const KEY := DeliveryKey(RuleKey(1, 10), 1)
  const TASK := R.Task(KEY, 7)
  const SCAN_TERMS := Terms(60 * SECOND, 3600 * SECOND, 600 * SECOND)
  const DELETION: Time := 70 * SECOND

  function Steps(): seq<Step> {
    [Transact(CreateNoteTx(1, CALL), 0),
     Scan(SCAN_TERMS, map[KEY := 7], multiset{TASK}),
     Authorize1(0, TASK, 60 * SECOND, 3600 * SECOND, "a@b"),
     Crash(0),
     Transact(DeleteNoteTx(1, 1, None), DELETION)]
  }

  predicate CallIn(db: Db, deletedAt: Option<Time>) {
    && db.notes.Keys == {1} && db.notes[1].active && db.notes[1].startsAt == 660 * SECOND
    && db.notes[1].seriesId.None? && db.notes[1].deletedAt == deletedAt && db.notes[1].purgedAt.None?
    && db.notes[1].supersededAt.None? && (deletedAt.None? ==> db.notes[1].version == 1)
  }

  predicate Reminds(db: Db, state: DeliveryState) {
    && KEY.rule in db.rules && db.rules[KEY.rule] == Rule(true, 1)
    && KEY in db.deliveries && db.deliveries[KEY].state == state && db.deliveries[KEY].dueAt == 60 * SECOND
  }

  lemma CallStays()
    ensures Strip("call") == "call"
  {
  }

  lemma Create() returns (a: Db)
    ensures CallIn(a, None) && Reminds(a, Pending)
    ensures Commits(Blank(map[]), a, CreateNoteTx(1, CALL), 0)
  {
    hide Save, Strip, StoreInv, CurrentDelivery;
    CallStays();
    var row := Note("call", "", 660 * SECOND, true, None, None, None, None, None, None, None, 1);
    var e := Edit(row, Some({}), {10}, false, None, NoteCreated);
    var db := Blank(map[]);
    a := Save(db, 1, e, 0);
    BlankInOrder();
    SaveTakesEffect(db, 1, e, 0);
    OnlyCall(db, a);
    SaveArmsReminders(db, 1, e, 0, 10);
    FirstCycle(e);
    Current(a);
  }

  lemma OnlyCall(a: Db, b: Db)
    requires a.notes.Keys <= {1} && 1 in b.notes && forall n :: n != 1 ==> Row(b, n) == Row(a, n)
    ensures b.notes.Keys == {1}
  {
    forall n | n in b.notes ensures n == 1 {
      assert n != 1 ==> Row(b, n) == Row(a, n);
    }
  }

  lemma BlankInOrder()
    ensures StoreInv(Blank(map[]))
  {
    InitInv(World(Blank(map[]), multiset{}, map[], multiset{}, multiset{}, multiset{}, {}));
  }

  lemma FirstCycle(e: Edit)
    requires e.offsets == {10}
    ensures var a := Save(Blank(map[]), 1, e, 0); KEY.rule in a.rules && a.rules[KEY.rule] == Rule(true, 1)
  {
    hide Reconcile, WithTags;
    RuleRow(Written(Blank(map[]), 1, e), OneNote(1, e.offsets, e.moved), 0, KEY.rule);
  }

  lemma Current(a: Db)
    requires KEY.rule in a.rules && a.rules[KEY.rule] == Rule(true, 1)
    ensures CurrentDelivery(Blank(map[]), 1, 10).None?
    ensures CurrentDelivery(a, 1, 10) == if KEY in a.deliveries then Some(a.deliveries[KEY]) else None
  {
  }

  lemma Claimed1(a: Db)
    requires CallIn(a, None) && Reminds(a, Pending)
    ensures {KEY} <= ClaimableKeys(a, 60 * SECOND) && Claims(a, SCAN_TERMS, map[KEY := 7]) == map[KEY := 7]
    ensures var b := ClaimBatch(a, SCAN_TERMS, map[KEY := 7]);
            CallIn(b, None) && Reminds(b, Claimed) && b.deliveries[KEY].claimToken == Some(7)
  {
  }

  lemma Attempted1(b: Db)
    requires CallIn(b, None) && Reminds(b, Claimed) && b.deliveries[KEY].claimToken == Some(7)
    ensures AuthorizedEmail(b, KEY, 7, 60 * SECOND, 3600 * SECOND, "a@b").Some?
    ensures var c := Authorize(b, KEY, 7, 60 * SECOND, 3600 * SECOND, "a@b");
            CallIn(c, None) && Reminds(c, AttemptStarted)
  {
  }

  lemma Delete(c: Db) returns (d: Db)
    requires StoreInv(c) && CallIn(c, None) && Reminds(c, AttemptStarted)
    ensures Commits(c, d, DeleteNoteTx(1, 1, None), DELETION)
    ensures CallIn(d, Some(DELETION)) && KEY in d.deliveries && d.deliveries[KEY].state.AttemptStarted?
  {
    hide Save, StoreInv, EnabledOffsets, RulesAdvance, NotesAdvance, SeriesAdvances, ActionsAdvance;
    var n := c.notes[1];
    var e := Edit(n.(deletedAt := Some(DELETION), version := n.version + 1), None, EnabledOffsets(c, 1), false,
                  Some(true), NoteDeleted);
    d := Save(c, 1, e, DELETION);
    SaveTakesEffect(c, 1, e, DELETION);
    OnlyCall(c, d);
    DeleteKeeps(c, 1, 1, None, DELETION);
    TxAttempts(c, d, DeleteNoteTx(1, 1, None), DELETION);
  }

  /** No batch that picks anything at this cutoff commits, so the cleanup does not finish. */
  ghost predicate Stuck(db: Db, cutoff: Time) {
    && ExpiredNotes(db, cutoff) == {1} && InFlight(db, ExpiredNotes(db, cutoff))
    && (forall picked, order, now | picked != {} && picked <= {1} && Elements(order) == Targets(db, picked, cutoff) ::
          Purge(db, picked, order, cutoff, now).None?)
  }

  lemma IsStuck(d: Db)
    requires CallIn(d, Some(DELETION)) && KEY in d.deliveries && d.deliveries[KEY].state.AttemptStarted?
    ensures Stuck(d, DELETION)
  {
    assert ExpiredNotes(d, DELETION) == {1};
    forall picked, order, now | picked != {} && picked <= {1} && Elements(order) == Targets(d, picked, DELETION)
      ensures Purge(d, picked, order, DELETION, now).None?
    {
      assert 1 in picked;
      assert 1 in Targets(d, picked, DELETION);
    }
  }

  ghost predicate LeavesStuck(run: seq<World>) {
    |run| == 6 && Run(run, Steps()) && Stuck(run[5].db, DELETION)
  }

  /** From the moment the trash of that note expires, no batch that meets it commits. */
  lemma LostWorkerBlocksPurge()
    ensures exists run :: LeavesStuck(run)
  {
    hide StoreInv, Commits, Run, Next, CallIn, Reminds, Stuck;
    var w := World(Blank(map[]), multiset{}, map[], multiset{}, multiset{}, multiset{}, {});
    var a := Create();
    var w1 := w.(db := a);
    Handles(w, w1, Steps()[0]);
    var b := ClaimBatch(a, SCAN_TERMS, map[KEY := 7]);
    var w2 := w1.(db := b, tasks := multiset{TASK}, tokens := {7});
    Scans(w1, w2);
    var w4 := w2.(db := Authorize(b, KEY, 7, 60 * SECOND, 3600 * SECOND, "a@b"), tasks := multiset{},
                  authorized := multiset{KEY});
    var w3 := Works(w2, w4);
    BlankInOrder();
    Kept(w, w1, w2, w3, w4);
    var d := Delete(w4.db);
    var w5 := w4.(db := d);
    Handles(w4, w5, Steps()[4]);
    IsStuck(d);
    var run := [w, w1, w2, w3, w4, w5];
    IsRun(run);
    assert LeavesStuck(run);
  }

  lemma Handles(w: World, w': World, step: Step)
    requires step.Transact? && HandlerTx(step.tx) && Commits(w.db, w'.db, step.tx, step.now) && w' == w.(db := w'.db)
    ensures Next(w, w', step)
  {
    hide Commits;
  }

  lemma Scans(w: World, w': World)
    requires CallIn(w.db, None) && Reminds(w.db, Pending) && w.tokens == {} && w.tasks == multiset{}
    requires w' == w.(db := ClaimBatch(w.db, SCAN_TERMS, map[KEY := 7]), tasks := multiset{TASK}, tokens := {7})
    ensures Next(w, w', Steps()[1]) && CallIn(w'.db, None) && Reminds(w'.db, Claimed)
    ensures w'.db.deliveries[KEY].claimToken == Some(7)
  {
    hide CallIn, Reminds, ClaimBatch, Claims, ClaimableKeys;
    Claimed1(w.db);
    assert (map[KEY := 7]).Keys == {KEY} && (map[KEY := 7]).Values == {7};
  }

  lemma Works(w: World, w': World) returns (mid: World)
    requires CallIn(w.db, None) && Reminds(w.db, Claimed) && w.db.deliveries[KEY].claimToken == Some(7)
    requires w.tasks == multiset{TASK} && w.workers == map[] && w.authorized == multiset{}
    requires w' == w.(db := Authorize(w.db, KEY, 7, 60 * SECOND, 3600 * SECOND, "a@b"), tasks := multiset{},
                      authorized := multiset{KEY})
    ensures Next(w, mid, Steps()[2]) && Next(mid, w', Steps()[3])
    ensures CallIn(w'.db, None) && Reminds(w'.db, AttemptStarted)
  {
    hide CallIn, Reminds, Authorize, AuthorizedEmail;
    Attempted1(w.db);
    var email := AuthorizedEmail(w.db, KEY, 7, 60 * SECOND, 3600 * SECOND, "a@b").value;
    mid := w'.(workers := map[0 := Worker(KEY, email, Ready)]);
  }

  lemma Kept(w: World, w1: World, w2: World, w3: World, w4: World)
    requires StoreInv(w.db) && Next(w, w1, Steps()[0]) && Next(w1, w2, Steps()[1])
    requires Next(w2, w3, Steps()[2]) && Next(w3, w4, Steps()[3])
    ensures StoreInv(w4.db)
  {
    hide StoreInv, Next, Advances;
    StepStore(w, w1, Steps()[0]);
    StepStore(w1, w2, Steps()[1]);
    StepStore(w2, w3, Steps()[2]);
    StepStore(w3, w4, Steps()[3]);
  }

  lemma IsRun(run: seq<World>)
    requires |run| == 6 && Init(run[0])
    requires Next(run[0], run[1], Steps()[0]) && Next(run[1], run[2], Steps()[1]) && Next(run[2], run[3], Steps()[2])
    requires Next(run[3], run[4], Steps()[3]) && Next(run[4], run[5], Steps()[4])
    ensures Run(run, Steps())
  {
    hide Next, Init;
  }
}

/** backend/app/jobs/reminders.py: the jobs, loop by loop, against module Reminders. */
module ReminderJobs {
  import opened Prelude
  import opened Storage
  import opened Reconciliation
  import opened Reminders

  const BATCH: nat := 100

  datatype Task = Task(delivery: DeliveryKey, token: Token)

  /** The task queue: an enqueue may be lost. */
  class Broker {
    var tasks: seq<Task>
    constructor () ensures tasks == [] { tasks := []; }

    method Enqueue(t: Task)
      modifies this
      ensures tasks == old(tasks) || tasks == old(tasks) + [t]
    {
      if * { tasks := tasks + [t]; }
    }
  }

  // ---------- the bounded query ----------

  function DueTimes(db: Db, now: Time): map<DeliveryKey, Time> {
    map dk | dk in ClaimableKeys(db, now) :: db.deliveries[dk].dueAt
  }

  /** SELECT … WHERE claimable ORDER BY due_at LIMIT limit, with no row locked by others. */
  method SelectDue(db: Db, now: Time, limit: nat) returns (rows: seq<DeliveryKey>)
    ensures FirstOf(rows, DueTimes(db, now), limit) && Distinct(rows)
    ensures Elements(rows) <= ClaimableKeys(db, now) && |rows| == AtMost(limit, |ClaimableKeys(db, now)|)
    ensures EarliestFirst(db, rows, now)
  {
    rows := SelectFirst(DueTimes(db, now), limit);
    assert DueTimes(db, now).Keys == ClaimableKeys(db, now);
    FirstAreEarliest(db, rows, now, limit);
  }

  /** The delivery is due and nobody holds it: pending, or claimed with a lease that has run out. */
  predicate Waiting(d: Delivery, now: Time) {
    && d.dueAt <= now
    && (d.state.Pending? || (d.state.Claimed? && d.claimExpiresAt.Some? && d.claimExpiresAt.value <= now))
  }

  /** The rows come earliest first, and none that waits and is due earlier was left out. */
  ghost predicate EarliestFirst(db: Db, rows: seq<DeliveryKey>, now: Time) {
    && (forall i, j :: 0 <= i < j < |rows| && rows[i] in db.deliveries && rows[j] in db.deliveries ==>
          db.deliveries[rows[i]].dueAt <= db.deliveries[rows[j]].dueAt)
    && (forall x, y :: x in rows && x in db.deliveries && y in db.deliveries && y !in rows
                       && Waiting(db.deliveries[y], now) ==>
          db.deliveries[x].dueAt <= db.deliveries[y].dueAt)
  }

  lemma FirstAreEarliest(db: Db, rows: seq<DeliveryKey>, now: Time, limit: nat)
    requires FirstOf(rows, DueTimes(db, now), limit)
    ensures EarliestFirst(db, rows, now)
  {
    var rank := DueTimes(db, now);
    forall x | x in rows ensures x in rank && x in db.deliveries && rank[x] == db.deliveries[x].dueAt { }
    assert forall y :: y in db.deliveries && Waiting(db.deliveries[y], now) ==>
                         y in rank && rank[y] == db.deliveries[y].dueAt;
    forall i, j | 0 <= i < j < |rows| && rows[i] in db.deliveries && rows[j] in db.deliveries
      ensures db.deliveries[rows[i]].dueAt <= db.deliveries[rows[j]].dueAt
    {
      assert rows[i] in rows && rows[j] in rows;
    }
  }

  // ---------- _claim_due_batch ----------

  lemma BatchGrows(db: Db, t: Terms, m: map<DeliveryKey, Token>, dk: DeliveryKey, token: Token)
    requires dk in db.deliveries && dk !in m
    ensures ClaimBatch(db, t, m).deliveries[dk] == db.deliveries[dk]
    ensures PutDelivery(ClaimBatch(db, t, m), dk, Scanned(db.deliveries[dk], t, token))
            == ClaimBatch(db, t, m[dk := token])
  {
    var a := PutDelivery(ClaimBatch(db, t, m), dk, Scanned(db.deliveries[dk], t, token));
    assert a.deliveries == ClaimBatch(db, t, m[dk := token]).deliveries;
  }

  /** The tasks of a batch: one per row that was claimed rather than missed. */
  ghost predicate TasksOf(db: Db, t: Terms, tokens: map<DeliveryKey, Token>, tasks: seq<Task>)
    requires tokens.Keys <= db.deliveries.Keys
  {
    && (forall x :: x in tasks <==>
          x.delivery in tokens && !Late(db.deliveries[x.delivery], t.now, t.grace) && x.token == tokens[x.delivery])
    && |tasks| == |Punctual(db, t, tokens.Keys)|
  }

  /** The rows of `keys` that are still within the grace period. */
  function Punctual(db: Db, t: Terms, keys: set<DeliveryKey>): set<DeliveryKey>
    requires keys <= db.deliveries.Keys
  {
    set dk | dk in keys && !Late(db.deliveries[dk], t.now, t.grace)
  }

  /** Every claimed row got its own token out of the range [low, high). */
  ghost predicate FreshTokens(db: Db, t: Terms, tokens: map<DeliveryKey, Token>, low: int, high: int)
    requires tokens.Keys <= db.deliveries.Keys
  {
    && (forall dk :: dk in Punctual(db, t, tokens.Keys) ==> low <= tokens[dk] < high)
    && (forall x, y :: x in Punctual(db, t, tokens.Keys) && y in Punctual(db, t, tokens.Keys) && x != y
          ==> tokens[x] != tokens[y])
  }

  /** What a scan leaves of the rows it takes: within the grace period they are claimed under
      their tokens and leased, past it they are missed; all others stay. */
  ghost predicate ClaimedOrMissed(db: Db, after: Db, t: Terms, tokens: map<DeliveryKey, Token>) {
    && after == db.(deliveries := after.deliveries) && after.deliveries.Keys == db.deliveries.Keys
    && (forall dk :: dk in db.deliveries ==>
          var d, d' := db.deliveries[dk], after.deliveries[dk];
          && (dk !in tokens ==> d' == d)
          && (dk in tokens ==> Waiting(d, t.now))
          && (dk in tokens && d.dueAt >= t.now - t.grace ==>
                d' == d.(state := Claimed, claimToken := Some(tokens[dk]), claimExpiresAt := Some(t.now + t.lease)))
          && (dk in tokens && d.dueAt < t.now - t.grace ==>
                d' == d.(state := Missed, claimToken := None, claimExpiresAt := None, resultAt := Some(t.now))))
  }

  /** The rows taken that are within the grace period. */
  function WithinGrace(db: Db, t: Terms, tokens: map<DeliveryKey, Token>): set<DeliveryKey> {
    set dk | dk in tokens && dk in db.deliveries && db.deliveries[dk].dueAt >= t.now - t.grace
  }

  /** One task for each of the rows, with its token, and no other. */
  ghost predicate TasksFor(rows: set<DeliveryKey>, tokens: map<DeliveryKey, Token>, tasks: seq<Task>) {
    && (forall x :: x in tasks <==> x.delivery in rows && x.delivery in tokens && x.token == tokens[x.delivery])
    && |tasks| == |rows|
  }

  lemma ScanLeaves(db: Db, t: Terms, tokens: map<DeliveryKey, Token>)
    requires tokens.Keys <= ClaimableKeys(db, t.now)
    ensures ClaimedOrMissed(db, ClaimBatch(db, t, tokens), t, tokens)
    ensures tokens.Keys <= db.deliveries.Keys && Punctual(db, t, tokens.Keys) == WithinGrace(db, t, tokens)
  {
  }

  lemma AllWaiting(db: Db, now: Time)
    ensures forall dk :: dk in ClaimableKeys(db, now) <==> dk in db.deliveries && Waiting(db.deliveries[dk], now)
  {
  }

  // lines 46-77
  method ClaimDueBatch(session: Session, t: Terms, limit: nat)
    returns (claimed: seq<Task>, processed: nat, ghost tokens: map<DeliveryKey, Token>, ghost rows: seq<DeliveryKey>)
    modifies session
    ensures Elements(rows) == tokens.Keys && tokens.Keys <= ClaimableKeys(old(session.db), t.now)
    ensures processed == |rows| == AtMost(limit, |ClaimableKeys(old(session.db), t.now)|) && Distinct(rows)
    ensures FirstOf(rows, DueTimes(old(session.db), t.now), limit) && EarliestFirst(old(session.db), rows, t.now)
    ensures session.db == ClaimBatch(old(session.db), t, tokens)
    ensures TasksOf(old(session.db), t, tokens, claimed)
    ensures FreshTokens(old(session.db), t, tokens, old(session.nextUuid), session.nextUuid)
    ensures session.nextUuid >= old(session.nextUuid)
    ensures ClaimedOrMissed(old(session.db), session.db, t, tokens)
    ensures TasksFor(WithinGrace(old(session.db), t, tokens), tokens, claimed)
  {
    hide ClaimedOrMissed, ClaimableKeys, ClaimBatch, FreshTokens, TasksOf, TasksFor, FirstOf, DueTimes, WithinGrace,
         BatchSoFar, EarliestFirst;
    ghost var db0 := session.db;
    var found := SelectDue(session.db, t.now, limit);
    claimed := [];
    tokens := map[];
    NothingClaimed(db0, t, session.nextUuid);
    for i := 0 to |found|
      invariant tokens.Keys == Elements(found[..i])
      invariant BatchSoFar(db0, session.db, t, tokens, claimed, old(session.nextUuid), session.nextUuid)
    {
      var dk := found[i];
      assert dk in Elements(found) && dk !in tokens;
      assert found[..i + 1] == found[..i] + [dk];
      claimed, tokens := ClaimNext(session, t, dk, claimed, db0, tokens, old(session.nextUuid));
    }
    assert found[..|found|] == found;
    processed := |found|;
    rows := found;
    BatchClaimed(db0, session.db, t, tokens, claimed, old(session.nextUuid), session.nextUuid);
  }

  /** The batch in the middle of its loop: ids were drawn from [low, next). */
  ghost predicate BatchSoFar(db0: Db, db: Db, t: Terms, tokens: map<DeliveryKey, Token>, claimed: seq<Task>, low: int,
                             next: int)
  {
    && tokens.Keys <= ClaimableKeys(db0, t.now) && db == ClaimBatch(db0, t, tokens) && low <= next
    && TasksOf(db0, t, tokens, claimed) && FreshTokens(db0, t, tokens, low, next)
  }

  lemma BatchClaimed(db0: Db, db: Db, t: Terms, tokens: map<DeliveryKey, Token>, claimed: seq<Task>, low: int,
                     next: int)
    requires BatchSoFar(db0, db, t, tokens, claimed, low, next)
    ensures tokens.Keys <= ClaimableKeys(db0, t.now) && tokens.Keys <= db0.deliveries.Keys
    ensures db == ClaimBatch(db0, t, tokens) && low <= next
    ensures TasksOf(db0, t, tokens, claimed) && FreshTokens(db0, t, tokens, low, next)
    ensures ClaimedOrMissed(db0, db, t, tokens)
    ensures TasksFor(WithinGrace(db0, t, tokens), tokens, claimed)
  {
    hide ClaimedOrMissed, ClaimBatch, FreshTokens, TasksOf, TasksFor, WithinGrace, Punctual;
    ScanLeaves(db0, t, tokens);
    SameTasks(db0, t, tokens, claimed);
  }

  lemma SameTasks(db: Db, t: Terms, tokens: map<DeliveryKey, Token>, tasks: seq<Task>)
    requires tokens.Keys <= db.deliveries.Keys && TasksOf(db, t, tokens, tasks)
    requires Punctual(db, t, tokens.Keys) == WithinGrace(db, t, tokens)
    ensures TasksFor(WithinGrace(db, t, tokens), tokens, tasks)
  {
    forall x ensures x in tasks <==> x.delivery in WithinGrace(db, t, tokens) && x.token == tokens[x.delivery] {
      assert x.delivery in Punctual(db, t, tokens.Keys) <==> x.delivery in WithinGrace(db, t, tokens);
    }
  }

  lemma NothingClaimed(db: Db, t: Terms, next: int)
    ensures BatchSoFar(db, db, t, map[], [], next, next)
  {
  }

  // One iteration of the claiming loop.
  method ClaimNext(session: Session, t: Terms, dk: DeliveryKey, claimed: seq<Task>, ghost db0: Db,
                   ghost tokens: map<DeliveryKey, Token>, ghost low: int)
    returns (claimed': seq<Task>, ghost tokens': map<DeliveryKey, Token>)
    requires BatchSoFar(db0, session.db, t, tokens, claimed, low, session.nextUuid)
    requires dk in ClaimableKeys(db0, t.now) && dk !in tokens
    modifies session
    ensures BatchSoFar(db0, session.db, t, tokens', claimed', low, session.nextUuid)
    ensures tokens'.Keys == tokens.Keys + {dk}
  {
    hide ClaimBatch, FreshTokens, TasksOf, Late, Claimable;
    ghost var next := session.nextUuid;
    var task, token := ClaimOne(session, t, dk, db0, tokens);
    OneMoreClaim(db0, t, tokens, claimed, dk, token, low, next);
    assert claimed + [] == claimed;
    claimed' := claimed + task;
    tokens' := tokens[dk := token];
  }

  method ClaimOne(session: Session, t: Terms, dk: DeliveryKey, ghost db0: Db, ghost tokens: map<DeliveryKey, Token>)
    returns (task: seq<Task>, token: Token)
    requires dk in db0.deliveries && dk !in tokens && session.db == ClaimBatch(db0, t, tokens)
    modifies session
    ensures session.db == ClaimBatch(db0, t, tokens[dk := token])
    ensures Late(db0.deliveries[dk], t.now, t.grace) ==> task == [] && session.nextUuid == old(session.nextUuid)
    ensures !Late(db0.deliveries[dk], t.now, t.grace) ==>
              task == [Task(dk, token)] && token == old(session.nextUuid) && session.nextUuid == token + 1
  {
    var delivery := session.db.deliveries[dk];
    task, token := [], 0;
    if delivery.dueAt < t.now - t.grace {
      delivery := delivery.(state := Missed, claimToken := None, claimExpiresAt := None, resultAt := Some(t.now));
    } else {
      token := session.Uuid();
      delivery := delivery.(state := Claimed, claimToken := Some(token), claimExpiresAt := Some(t.now + t.lease));
      task := [Task(dk, token)];
    }
    BatchGrows(db0, t, tokens, dk, token);
    session.db := PutDelivery(session.db, dk, delivery);
  }

  lemma OneMoreClaim(db: Db, t: Terms, tokens: map<DeliveryKey, Token>, tasks: seq<Task>,
                     dk: DeliveryKey, token: Token, low: int, high: int)
    requires tokens.Keys <= db.deliveries.Keys && dk in db.deliveries && dk !in tokens && low <= high
    requires TasksOf(db, t, tokens, tasks) && FreshTokens(db, t, tokens, low, high)
    requires !Late(db.deliveries[dk], t.now, t.grace) ==> token == high
    ensures var late := Late(db.deliveries[dk], t.now, t.grace);
            && TasksOf(db, t, tokens[dk := token], if late then tasks else tasks + [Task(dk, token)])
            && FreshTokens(db, t, tokens[dk := token], low, if late then high else high + 1)
  {
    hide Late;
    var after := tokens[dk := token];
    if Late(db.deliveries[dk], t.now, t.grace) {
      assert Punctual(db, t, after.Keys) == Punctual(db, t, tokens.Keys);
    } else {
      assert Punctual(db, t, after.Keys) == Punctual(db, t, tokens.Keys) + {dk};
    }
  }

  // ---------- scan_and_enqueue ----------

  /** A row handled by a scan with a positive lease is out of reach of the same scan. */
  lemma HandledOnce(db: Db, t: Terms, tokens: map<DeliveryKey, Token>)
    requires t.lease > 0 && tokens.Keys <= ClaimableKeys(db, t.now)
    ensures ClaimableKeys(ClaimBatch(db, t, tokens), t.now) == ClaimableKeys(db, t.now) - tokens.Keys
  {
  }

  lemma BatchesCompose(db: Db, t: Terms, m: map<DeliveryKey, Token>, m': map<DeliveryKey, Token>)
    requires m.Keys !! m'.Keys
    ensures ClaimBatch(ClaimBatch(db, t, m), t, m') == ClaimBatch(db, t, m + m')
  {
    assert ClaimBatch(ClaimBatch(db, t, m), t, m').deliveries == ClaimBatch(db, t, m + m').deliveries;
  }

  /** Everything the scan has done so far, as one batch over the store it started from. */
  ghost predicate ScanSoFar(db0: Db, db: Db, t: Terms, tokens: map<DeliveryKey, Token>, total: nat, low: int,
                            high: int) {
    && tokens.Keys <= ClaimableKeys(db0, t.now)
    && db == ClaimBatch(db0, t, tokens)
    && ClaimableKeys(db, t.now) == ClaimableKeys(db0, t.now) - tokens.Keys
    && FreshTokens(db0, t, tokens, low, high) && low <= high
    && total == |Punctual(db0, t, tokens.Keys)|
  }

  lemma OneMoreBatch(db0: Db, db: Db, t: Terms, tokens: map<DeliveryKey, Token>, total: nat, low: int, high: int,
                     batch: map<DeliveryKey, Token>, claims: nat, high': int)
    requires t.lease > 0 && ScanSoFar(db0, db, t, tokens, total, low, high)
    requires batch.Keys <= ClaimableKeys(db, t.now) && high <= high'
    requires claims == |Punctual(db, t, batch.Keys)| && FreshTokens(db, t, batch, high, high')
    ensures ScanSoFar(db0, ClaimBatch(db, t, batch), t, tokens + batch, total + claims, low, high')
    ensures Punctual(db, t, batch.Keys) == Punctual(db0, t, batch.Keys)
  {
    hide ClaimBatch, Claimable, Late;
    HandledOnce(db, t, batch);
    BatchesCompose(db0, t, tokens, batch);
    BatchSame(db0, t, tokens);
    SamePunctual(db0, db, t, batch.Keys);
    FreshUnion(db0, t, tokens, batch, low, high, high');
  }

  lemma BatchSame(db: Db, t: Terms, tokens: map<DeliveryKey, Token>)
    ensures var a := ClaimBatch(db, t, tokens);
            a.deliveries.Keys == db.deliveries.Keys
            && forall dk :: dk in db.deliveries && dk !in tokens ==> a.deliveries[dk] == db.deliveries[dk]
  {
  }

  lemma SamePunctual(db0: Db, db: Db, t: Terms, keys: set<DeliveryKey>)
    requires keys <= db0.deliveries.Keys && keys <= db.deliveries.Keys
    requires forall dk :: dk in keys ==> db.deliveries[dk] == db0.deliveries[dk]
    ensures Punctual(db, t, keys) == Punctual(db0, t, keys)
  {
  }

  lemma FreshUnion(db: Db, t: Terms, m: map<DeliveryKey, Token>, m': map<DeliveryKey, Token>, low: int, mid: int,
                   high: int)
    requires m.Keys <= db.deliveries.Keys && m'.Keys <= db.deliveries.Keys && m.Keys !! m'.Keys
    requires low <= mid <= high && FreshTokens(db, t, m, low, mid) && FreshTokens(db, t, m', mid, high)
    ensures FreshTokens(db, t, m + m', low, high)
    ensures |Punctual(db, t, (m + m').Keys)| == |Punctual(db, t, m.Keys)| + |Punctual(db, t, m'.Keys)|
  {
    var p, q := Punctual(db, t, m.Keys), Punctual(db, t, m'.Keys);
    assert Punctual(db, t, (m + m').Keys) == p + q;
    assert p !! q;
  }

  /** The tasks enqueued since `old` are claims of the scan, each with its token. */
  ghost predicate Enqueued(was: seq<Task>, tasks: seq<Task>, punctual: set<DeliveryKey>,
                           tokens: map<DeliveryKey, Token>)
    requires punctual <= tokens.Keys
  {
    && was <= tasks
    && (forall x :: x in tasks[|was|..] ==> x.delivery in punctual && x.token == tokens[x.delivery])
  }

  // lines 80-101
  method ScanAndEnqueue(session: Session, broker: Broker, t: Terms)
    returns (totalClaims: nat, ghost tokens: map<DeliveryKey, Token>)
    requires t.lease > 0
    modifies session, broker
    ensures tokens.Keys == ClaimableKeys(old(session.db), t.now)
    ensures session.db == ClaimBatch(old(session.db), t, tokens)
    ensures ClaimableKeys(session.db, t.now) == {}
    ensures FreshTokens(old(session.db), t, tokens, old(session.nextUuid), session.nextUuid)
    ensures totalClaims == |Punctual(old(session.db), t, tokens.Keys)|
    ensures Enqueued(old(broker.tasks), broker.tasks, Punctual(old(session.db), t, tokens.Keys), tokens)
    ensures forall dk :: dk in tokens <==>
              dk in old(session.db).deliveries && Waiting(old(session.db).deliveries[dk], t.now)
    ensures ClaimedOrMissed(old(session.db), session.db, t, tokens)
    ensures WithinGrace(old(session.db), t, tokens) <= tokens.Keys
    ensures totalClaims == |WithinGrace(old(session.db), t, tokens)|
    ensures Enqueued(old(broker.tasks), broker.tasks, WithinGrace(old(session.db), t, tokens), tokens)
    ensures forall dk :: dk in session.db.deliveries ==> !Waiting(session.db.deliveries[dk], t.now)
  {
    hide ClaimBatch, Claimable, FreshTokens, Enqueued, ClaimedOrMissed, Waiting, WithinGrace;
    ghost var db0 := session.db;
    totalClaims := 0;
    tokens := map[];
    ScanStarts(db0, t, broker.tasks, session.nextUuid);
    while true
      invariant ScanSoFar(db0, session.db, t, tokens, totalClaims, old(session.nextUuid), session.nextUuid)
      invariant Enqueued(old(broker.tasks), broker.tasks, Punctual(db0, t, tokens.Keys), tokens)
      decreases ClaimableKeys(session.db, t.now)
    {
      var processed;
      totalClaims, processed, tokens := ScanOnce(session, broker, t, totalClaims, db0, tokens,
                                                 old(session.nextUuid), old(broker.tasks));
      if processed < BATCH { break; }
    }
    ScanEnds(db0, session.db, t, tokens, totalClaims, old(session.nextUuid), session.nextUuid);
  }

  lemma ScanEnds(db0: Db, db: Db, t: Terms, tokens: map<DeliveryKey, Token>, total: nat, low: int, high: int)
    requires ScanSoFar(db0, db, t, tokens, total, low, high) && ClaimableKeys(db, t.now) == {}
    ensures tokens.Keys == ClaimableKeys(db0, t.now) && db == ClaimBatch(db0, t, tokens)
    ensures FreshTokens(db0, t, tokens, low, high) && total == |Punctual(db0, t, tokens.Keys)|
    ensures forall dk :: dk in tokens <==> dk in db0.deliveries && Waiting(db0.deliveries[dk], t.now)
    ensures ClaimedOrMissed(db0, db, t, tokens) && WithinGrace(db0, t, tokens) <= tokens.Keys
    ensures Punctual(db0, t, tokens.Keys) == WithinGrace(db0, t, tokens)
    ensures forall dk :: dk in db.deliveries ==> !Waiting(db.deliveries[dk], t.now)
  {
    hide ClaimBatch, Claimable, FreshTokens, ClaimedOrMissed, Waiting;
    ScanLeaves(db0, t, tokens);
    AllWaiting(db0, t.now);
    AllWaiting(db, t.now);
  }

  lemma ScanStarts(db: Db, t: Terms, tasks: seq<Task>, nextUuid: int)
    ensures ScanSoFar(db, db, t, map[], 0, nextUuid, nextUuid)
    ensures var none: map<DeliveryKey, Token> := map[]; Enqueued(tasks, tasks, Punctual(db, t, none.Keys), none)
  {
  }

  // One turn of the scan loop: a committed batch, then its tasks.
  method ScanOnce(session: Session, broker: Broker, t: Terms, total: nat, ghost db0: Db,
                  ghost was: map<DeliveryKey, Token>, ghost low: int, ghost tasks0: seq<Task>)
    returns (total': nat, processed: nat, ghost tokens: map<DeliveryKey, Token>)
    requires t.lease > 0 && ScanSoFar(db0, session.db, t, was, total, low, session.nextUuid)
    requires Enqueued(tasks0, broker.tasks, Punctual(db0, t, was.Keys), was)
    modifies session, broker
    ensures ScanSoFar(db0, session.db, t, tokens, total', low, session.nextUuid)
    ensures Enqueued(tasks0, broker.tasks, Punctual(db0, t, tokens.Keys), tokens)
    ensures ClaimableKeys(session.db, t.now) <= ClaimableKeys(old(session.db), t.now)
    ensures processed < BATCH ==> ClaimableKeys(session.db, t.now) == {}
    ensures processed >= BATCH ==> ClaimableKeys(session.db, t.now) != ClaimableKeys(old(session.db), t.now)
  {
    hide ClaimBatch, Claimable, FreshTokens, Enqueued, FirstOf, EarliestFirst, ClaimedOrMissed, TasksFor, WithinGrace;
    ghost var before, high, mid := session.db, session.nextUuid, broker.tasks;
    var claims;
    ghost var batch, rows;
    claims, processed, batch, rows := ClaimDueBatch(session, t, BATCH);
    OneMoreBatch(db0, before, t, was, total, low, high, batch, |claims|, session.nextUuid);
    tokens := was + batch;
    EnqueueAll(broker, claims);
    total' := total + |claims|;
    HandledOnce(before, t, batch);
    CountDistinct(rows);
    if processed < BATCH {
      TakenAll(batch.Keys, ClaimableKeys(before, t.now));
    } else {
      assert rows[0] in Elements(rows);
    }
    BatchEnqueued(before, t, batch, claims, mid, broker.tasks);
    EnqueueMore(db0, t, was, batch, tasks0, mid, broker.tasks);
  }

  lemma BatchEnqueued(db: Db, t: Terms, batch: map<DeliveryKey, Token>, claims: seq<Task>, mid: seq<Task>,
                      now: seq<Task>)
    requires batch.Keys <= db.deliveries.Keys && TasksOf(db, t, batch, claims)
    requires mid <= now && forall x :: x in now[|mid|..] ==> x in claims
    ensures Enqueued(mid, now, Punctual(db, t, batch.Keys), batch)
  {
  }

  lemma EnqueueMore(db: Db, t: Terms, m: map<DeliveryKey, Token>, m': map<DeliveryKey, Token>,
                    was: seq<Task>, mid: seq<Task>, now: seq<Task>)
    requires m.Keys <= db.deliveries.Keys && m'.Keys <= db.deliveries.Keys && m.Keys !! m'.Keys
    requires Enqueued(was, mid, Punctual(db, t, m.Keys), m)
    requires Enqueued(mid, now, Punctual(db, t, m'.Keys), m')
    ensures Enqueued(was, now, Punctual(db, t, (m + m').Keys), m + m')
  {
  }

  // Failed enqueue is not rolled back: the lease recovers it.
  method EnqueueAll(broker: Broker, claims: seq<Task>)
    modifies broker
    ensures old(broker.tasks) <= broker.tasks
    ensures forall x :: x in broker.tasks[|old(broker.tasks)|..] ==> x in claims
  {
    for i := 0 to |claims|
      invariant old(broker.tasks) <= broker.tasks
      invariant forall x :: x in broker.tasks[|old(broker.tasks)|..] ==> x in claims
    {
      broker.Enqueue(claims[i]);
    }
  }

  // ---------- authorize_delivery and the end of deliver ----------

  /** The task still holds its claim. */
  predicate Holds(db: Db, dk: DeliveryKey, token: Token) {
    && dk in db.deliveries && dk.rule in db.rules && dk.rule.note in db.notes
    && db.deliveries[dk].state.Claimed? && db.deliveries[dk].claimToken == Some(token)
  }

  /** The reminder still stands: its rule is enabled and on this cycle, its note active, outside
      the trash and not replaced. */
  predicate StillWanted(db: Db, dk: DeliveryKey) {
    && dk.rule in db.rules && db.rules[dk.rule].enabled && db.rules[dk.rule].cycle == dk.cycle
    && dk.rule.note in db.notes
    && var n := db.notes[dk.rule.note];
       n.active && n.deletedAt.None? && n.supersededAt.None? && n.purgedAt.None?
  }

  /** The final authorization, case by case. A task that lost its claim changes nothing; a reminder
      that no longer stands is cancelled; one that is early goes back to pending and one that is
      past the grace period is missed, both unclaimed; and exactly in the remaining case an attempt
      starts, with the recipient, the note's title and body in the delivery, in the notification
      and in the email. */
  ghost predicate Decided(db: Db, after: Db, dk: DeliveryKey, token: Token, now: Time, grace: Time, recipient: string,
                          email: Option<Email>)
  {
    if !Holds(db, dk, token) then after == db && email.None?
    else
      var d, n := db.deliveries[dk], db.notes[dk.rule.note];
      if !StillWanted(db, dk) then
        email.None? && after == db.(deliveries := db.deliveries[dk :=
          d.(state := Cancelled, claimToken := None, claimExpiresAt := None, resultAt := Some(now))])
      else if d.dueAt > now then
        email.None? && after == db.(deliveries := db.deliveries[dk :=
          d.(state := Pending, claimToken := None, claimExpiresAt := None, resultAt := None)])
      else if d.dueAt < now - grace then
        email.None? && after == db.(deliveries := db.deliveries[dk :=
          d.(state := Missed, claimToken := None, claimExpiresAt := None, resultAt := Some(now))])
      else
        && email == Some(Email(recipient, "Reminder: " + n.title, n.body, dk))
        && after == db.(
             deliveries := db.deliveries[dk :=
               d.(state := AttemptStarted, authorizedAt := Some(now), claimExpiresAt := None,
                  recipient := Some(recipient), content := Some(Content(n.title, n.body, dk.rule.note)))],
             notifications := db.notifications[dk := Notification(d.dueAt, n.title, n.body)],
             outbox := db.outbox + [Event(NotificationCreated, NotificationEntity(dk), 1)])
  }

  // lines 104-192
  method AuthorizeDelivery(session: Session, dk: DeliveryKey, token: Token, now: Time, grace: Time, recipient: string)
    returns (email: Option<Email>)
    modifies session`db
    ensures session.db == Authorize(old(session.db), dk, token, now, grace, recipient)
    ensures email == AuthorizedEmail(old(session.db), dk, token, now, grace, recipient)
    ensures Decided(old(session.db), session.db, dk, token, now, grace, recipient, email)
  {
    email := None;
    if dk !in session.db.deliveries || dk.rule !in session.db.rules || dk.rule.note !in session.db.notes {
      return;
    }
    var note := session.db.notes[dk.rule.note];
    var rule := session.db.rules[dk.rule];
    var delivery := session.db.deliveries[dk];
    if !delivery.state.Claimed? || delivery.claimToken != Some(token) {
      return;
    }
    if !rule.enabled || rule.cycle != dk.cycle || !note.active || note.deletedAt.Some?
       || note.supersededAt.Some? || note.purgedAt.Some? {
      delivery := delivery.(state := Cancelled, claimToken := None, claimExpiresAt := None, resultAt := Some(now));
      session.db := PutDelivery(session.db, dk, delivery);
      return;
    }
    if delivery.dueAt > now {
      delivery := delivery.(state := Pending, claimToken := None, claimExpiresAt := None, resultAt := None);
      session.db := PutDelivery(session.db, dk, delivery);
      return;
    }
    if delivery.dueAt < now - grace {
      delivery := delivery.(state := Missed, claimToken := None, claimExpiresAt := None, resultAt := Some(now));
      session.db := PutDelivery(session.db, dk, delivery);
      return;
    }
    delivery := delivery.(state := AttemptStarted, authorizedAt := Some(now), claimExpiresAt := None,
                          recipient := Some(recipient),
                          content := Some(Content(note.title, note.body, dk.rule.note)));
    var notification := Notification(delivery.dueAt, note.title, note.body);
    session.db := session.db.(deliveries := session.db.deliveries[dk := delivery],
                              notifications := session.db.notifications[dk := notification],
                              outbox := session.db.outbox + [NotificationEvent(dk)]);
    email := Some(Email(recipient, "Reminder: " + note.title, note.body, dk));
  }

  // lines 218-243
  method RecordVisibleEmailFailure(session: Session, dk: DeliveryKey, unknown: bool)
    requires dk in session.db.notifications
    modifies session`db
    ensures session.db == old(session.db).(
              notifications := old(session.db).notifications[
                dk := MarkFailure(old(session.db).notifications[dk], unknown)],
              outbox := old(session.db).outbox + [NotificationEvent(dk)])
    ensures MarkedOnce(old(session.db).notifications[dk], session.db.notifications[dk], unknown)
  {
    hide MarkedOnce, Clip;
    var notification := session.db.notifications[dk];
    MarkIsOnce(notification, unknown);
    var prefix := if unknown then UNKNOWN else FAILED;
    if !(prefix <= notification.title) {
      notification := notification.(title := Clip(prefix + notification.title));
    }
    session.db := session.db.(notifications := session.db.notifications[dk := notification],
                              outbox := session.db.outbox + [NotificationEvent(dk)]);
  }

  /** What the report of an attempt leaves: sent if the server accepted, unknown if the outcome is
      ambiguous, failed otherwise, each with its code. */
  predicate ResultOf(d: Delivery, d': Delivery, o: Outcome, now: Time) {
    && (d'.state.Sent? <==> o.Accepted?) && (d'.state.Unknown? <==> o.Ambiguous?)
    && (d'.state.Failed? <==> o.Refused? || o.BadAddress?)
    && (o.Accepted? ==> d'.errorCode.None?)
    && (o.Ambiguous? ==> d'.errorCode == Some(SmtpOutcomeUnknown))
    && (o.Refused? ==> d'.errorCode == Some(SmtpSendFailed))
    && (o.BadAddress? ==> d'.errorCode == Some(InvalidRecipient))
    && d'.resultAt == Some(now)
    && d' == d.(state := d'.state, errorCode := d'.errorCode, resultAt := d'.resultAt)
  }

  /** The report of an open attempt writes its result, and marks and announces its notification
      unless the email was accepted; it leaves everything else, and everything if the attempt is
      no longer open. */
  ghost predicate Reported(db: Db, after: Db, dk: DeliveryKey, o: Outcome, now: Time)
    requires dk in db.deliveries
  {
    if !db.deliveries[dk].state.AttemptStarted? then after == db
    else
      && dk in after.deliveries && ResultOf(db.deliveries[dk], after.deliveries[dk], o, now)
      && dk in db.notifications && dk in after.notifications
      && (o.Accepted? ==> after.notifications == db.notifications && after.outbox == db.outbox)
      && (!o.Accepted? ==> MarkedOnce(db.notifications[dk], after.notifications[dk], o.Ambiguous?)
                           && after.outbox == db.outbox + [NotificationEvent(dk)])
      && after == db.(deliveries := db.deliveries[dk := after.deliveries[dk]],
                      notifications := db.notifications[dk := after.notifications[dk]], outbox := after.outbox)
  }

  lemma ReportLeaves(db: Db, dk: DeliveryKey, o: Outcome, now: Time)
    requires dk in db.deliveries && (db.deliveries[dk].state.AttemptStarted? ==> dk in db.notifications)
    ensures Reported(db, RecordOutcome(db, dk, o, now), dk, o, now)
  {
    hide MarkedOnce, MarkFailure;
    if db.deliveries[dk].state.AttemptStarted? {
      MarkIsOnce(db.notifications[dk], o.Ambiguous?);
      assert db.notifications == db.notifications[dk := db.notifications[dk]];
    }
  }

  // lines 266-282: the second transaction of deliver.
  method FinishDelivery(session: Session, dk: DeliveryKey, o: Outcome, finishedAt: Time)
    requires dk in session.db.deliveries && Shaped(session.db) && Notified(session.db)
    modifies session`db
    ensures old(session.db).deliveries[dk].state.AttemptStarted? ==> dk in old(session.db).notifications
    ensures session.db == RecordOutcome(old(session.db), dk, o, finishedAt)
    ensures Reported(old(session.db), session.db, dk, o, finishedAt)
  {
    hide Reported, ResultOf, MarkedOnce;
    ghost var db0 := session.db;
    var row := session.db.deliveries[dk];
    assert Shape(row);
    if row.state.AttemptStarted? {
      row := row.(state := if o.Ambiguous? then Unknown else if o.Accepted? then Sent else Failed,
                  errorCode := OutcomeCode(o), resultAt := Some(finishedAt));
      session.db := PutDelivery(session.db, dk, row);
      if !o.Accepted? {
        RecordVisibleEmailFailure(session, dk, o.Ambiguous?);
      }
    }
    ReportLeaves(db0, dk, o, finishedAt);
  }

  function StaleKeys(db: Db, now: Time, olderThan: Time): set<DeliveryKey> {
    set dk | dk in db.deliveries && Stale(db.deliveries[dk], now, olderThan)
  }

  lemma ClassifyOne(db: Db, rows: seq<DeliveryKey>, now: Time, dk: DeliveryKey)
    requires dk in db.deliveries && dk in db.notifications && dk !in rows
    ensures var a := Classify(db, rows, now);
            && dk in a.deliveries && dk in a.notifications
            && a.deliveries[dk] == db.deliveries[dk] && a.notifications[dk] == db.notifications[dk]
            && Classify(db, rows + [dk], now)
               == a.(deliveries := a.deliveries[dk := Abandon(db.deliveries[dk], now)],
                     notifications := a.notifications[dk := MarkFailure(db.notifications[dk], true)],
                     outbox := a.outbox + [NotificationEvent(dk)])
  {
    var a, b := Classify(db, rows, now), Classify(db, rows + [dk], now);
    assert b.deliveries == a.deliveries[dk := Abandon(db.deliveries[dk], now)];
    assert b.notifications == a.notifications[dk := MarkFailure(db.notifications[dk], true)];
    assert b.outbox == a.outbox + [NotificationEvent(dk)];
  }

  lemma ClassifyNone(db: Db, now: Time)
    ensures Classify(db, [], now) == db
  {
  }

  function StaleTimes(db: Db, now: Time, olderThan: Time): map<DeliveryKey, Time> {
    map dk | dk in StaleKeys(db, now, olderThan) :: db.deliveries[dk].authorizedAt.value
  }

  // lines 285-304
  method ClassifyUnknown(session: Session, now: Time, olderThan: Time, limit: nat)
    returns (changed: nat, ghost rows: seq<DeliveryKey>)
    requires Shaped(session.db) && Notified(session.db)
    modifies session`db
    ensures FirstOf(rows, StaleTimes(old(session.db), now, olderThan), limit)
    ensures Distinct(rows) && Elements(rows) <= StaleKeys(old(session.db), now, olderThan)
    ensures changed == |rows| == AtMost(limit, |StaleKeys(old(session.db), now, olderThan)|)
    ensures session.db == Classify(old(session.db), rows, now)
    ensures GivenUp(old(session.db), session.db, rows, now)
    ensures forall dk :: dk in rows ==> Overdue(old(session.db), dk, now - olderThan)
    ensures changed < limit ==>
              forall dk :: dk in old(session.db).deliveries && Overdue(old(session.db), dk, now - olderThan) ==>
                dk in rows
  {
    hide Classify, Notified, Shaped, GivenUp;
    ghost var db0 := session.db;
    var found := SelectFirst(StaleTimes(session.db, now, olderThan), limit);
    assert StaleTimes(db0, now, olderThan).Keys == StaleKeys(db0, now, olderThan);
    ClassifyNone(db0, now);
    for i := 0 to |found|
      invariant session.db == Classify(db0, found[..i], now)
    {
      assert found[i] in found && found[i] !in found[..i];
      ClassifyNext(session, found[i], now, db0, found[..i]);
      assert found[..i + 1] == found[..i] + [found[i]];
    }
    assert found[..|found|] == found;
    changed, rows := |found|, found;
    AllOverdue(db0, rows, now, olderThan, limit);
    ClassifyLeaves(db0, rows, now);
  }

  /** The attempt is open and was authorized before the given time. */
  predicate Overdue(db: Db, dk: DeliveryKey, before: Time) {
    && dk in db.deliveries && db.deliveries[dk].state.AttemptStarted?
    && db.deliveries[dk].authorizedAt.Some? && db.deliveries[dk].authorizedAt.value < before
  }

  /** The attempts in `rows` are unknown now, each with its code, its marked notification and an
      event, and nothing else changed. */
  ghost predicate GivenUp(db: Db, after: Db, rows: seq<DeliveryKey>, now: Time) {
    && after.deliveries.Keys == db.deliveries.Keys && after.notifications.Keys == db.notifications.Keys
    && (forall dk :: dk in db.deliveries ==>
          var d := db.deliveries[dk];
          after.deliveries[dk] == if dk !in rows then d
            else d.(state := Unknown, resultAt := Some(now),
                    errorCode := if d.errorCode.None? then Some(WorkerOutcomeUnknown) else d.errorCode))
    && (forall dk :: dk in db.notifications ==>
          if dk in rows then MarkedOnce(db.notifications[dk], after.notifications[dk], true)
          else after.notifications[dk] == db.notifications[dk])
    && |after.outbox| == |db.outbox| + |rows| && db.outbox <= after.outbox
    && (forall i :: 0 <= i < |rows| ==>
          after.outbox[|db.outbox| + i] == Event(NotificationCreated, NotificationEntity(rows[i]), 1))
    && after == db.(deliveries := after.deliveries, notifications := after.notifications, outbox := after.outbox)
  }

  lemma ClassifyLeaves(db: Db, rows: seq<DeliveryKey>, now: Time)
    ensures GivenUp(db, Classify(db, rows, now), rows, now)
  {
    hide MarkedOnce, MarkFailure;
    forall dk | dk in db.notifications
      ensures MarkedOnce(db.notifications[dk], MarkFailure(db.notifications[dk], true), true)
    {
      MarkIsOnce(db.notifications[dk], true);
    }
  }

  lemma AllOverdue(db: Db, rows: seq<DeliveryKey>, now: Time, olderThan: Time, limit: nat)
    requires Distinct(rows) && Elements(rows) <= StaleKeys(db, now, olderThan)
    requires |rows| == AtMost(limit, |StaleKeys(db, now, olderThan)|)
    ensures forall dk :: dk in rows ==> Overdue(db, dk, now - olderThan)
    ensures |rows| < limit ==> forall dk :: dk in db.deliveries && Overdue(db, dk, now - olderThan) ==> dk in rows
  {
    forall dk | dk in rows ensures Overdue(db, dk, now - olderThan) { assert dk in Elements(rows); }
    if |rows| < limit {
      CountDistinct(rows);
      TakenAll(Elements(rows), StaleKeys(db, now, olderThan));
      forall dk | dk in db.deliveries && Overdue(db, dk, now - olderThan) ensures dk in rows {
        assert dk in StaleKeys(db, now, olderThan);
      }
    }
  }

  // One turn of the classifying loop.
  method ClassifyNext(session: Session, dk: DeliveryKey, now: Time, ghost db0: Db, ghost done: seq<DeliveryKey>)
    requires Shaped(db0) && Notified(db0) && session.db == Classify(db0, done, now)
    requires dk in db0.deliveries && db0.deliveries[dk].authorizedAt.Some? && dk !in done
    modifies session`db
    ensures session.db == Classify(db0, done + [dk], now)
  {
    hide Classify, Notified, Shaped;
    NotifiedAt(db0, dk);
    ClassifyOne(db0, done, now, dk);
    var row := session.db.deliveries[dk];
    session.db := PutDelivery(session.db, dk,
      row.(state := Unknown, resultAt := Some(now),
           errorCode := if row.errorCode.Some? then row.errorCode else Some(WorkerOutcomeUnknown)));
    RecordVisibleEmailFailure(session, dk, true);
  }

  lemma NotifiedAt(db: Db, dk: DeliveryKey)
    requires Notified(db) && dk in db.deliveries && db.deliveries[dk].authorizedAt.Some?
    ensures dk in db.notifications
  {
  }
}

/** backend/app/jobs/outbox.py and the outbox clause of maintain: at-least-once publication. */
module Outbox {
  import opened Prelude
  import opened Storage

  type EventId = int

  datatype Row = Row(createdAt: Time, attempts: nat, publishedAt: Option<Time>, nextAttemptAt: Option<Time>,
                     failed: bool)

  // ck_outbox_state_shape
  predicate RowShape(r: Row) {
    r.publishedAt.Some? ==> r.nextAttemptAt.None? && !r.failed
  }

  predicate Due(r: Row, now: Time) {
    r.publishedAt.None? && (r.nextAttemptAt.None? || r.nextAttemptAt.value <= now)
  }

  function Pow2(k: nat): nat {
    if k == 0 then 1 else 2 * Pow2(k - 1)
  }

  /** Seconds to wait after the given number of attempts, the last of which failed. */
  function Backoff(attempts: nat): nat
    requires attempts >= 1
  {
    var exponent := if attempts - 1 < 6 then attempts - 1 else 6;
    if Pow2(exponent) < 60 then Pow2(exponent) else 60
  }

  lemma {:induction false} Pow2Grows(i: nat, j: nat)
    requires i <= j
    ensures 1 <= Pow2(i) <= Pow2(j)
    decreases j
  {
    if i < j { Pow2Grows(i, j - 1); }
    else if i > 0 { Pow2Grows(i - 1, j - 1); }
  }

  /** Retry delays never shrink and stay within one second and one minute. */
  lemma BackoffIsBounded(m: nat, n: nat)
    requires 1 <= m <= n
    ensures 1 <= Backoff(m) <= Backoff(n) <= 60
    ensures Backoff(m) == 60 <==> m >= 7
  {
    var i, j := if m - 1 < 6 then m - 1 else 6, if n - 1 < 6 then n - 1 else 6;
    Pow2Grows(i, j);
    assert Pow2(5) == 32 && Pow2(6) == 64;
    if m < 7 { Pow2Grows(m - 1, 5); }
  }

  /** The delay starts at a second and doubles with each failure, up to a minute. */
  lemma BackoffDoubles(n: nat)
    requires n >= 1
    ensures Backoff(1) == 1
    ensures Backoff(n + 1) == if 2 * Backoff(n) < 60 then 2 * Backoff(n) else 60
  {
    assert Pow2(0) == 1 && Pow2(1) == 2 && Pow2(2) == 4 && Pow2(3) == 8 && Pow2(4) == 16 && Pow2(5) == 32
        && Pow2(6) == 64;
    BackoffIsBounded(n, n + 1);
  }

  function Attempt(r: Row, ok: bool, now: Time): Row {
    if ok then r.(attempts := r.attempts + 1, publishedAt := Some(now), nextAttemptAt := None, failed := false)
    else r.(attempts := r.attempts + 1, nextAttemptAt := Some(now + Backoff(r.attempts + 1) * SECOND), failed := true)
  }

  /** The outbox table after the attempts in `tried`, each with its outcome. */
  function Attempted(rows: map<EventId, Row>, tried: map<EventId, bool>, now: Time): map<EventId, Row> {
    map id | id in rows :: if id in tried then Attempt(rows[id], tried[id], now) else rows[id]
  }

  function DueRows(rows: map<EventId, Row>, now: Time): set<EventId> {
    set id | id in rows && Due(rows[id], now)
  }

  /** The pub/sub channel: a failed call may have delivered nevertheless. */
  class Channel {
    var messages: seq<EventId>

    constructor () ensures messages == [] { messages := []; }

    method Publish(id: EventId) returns (ok: bool)
      modifies this
      ensures messages == old(messages) + [id] || (!ok && messages == old(messages))
    {
      ok := false;
      if * {
        messages := messages + [id];
        if * { ok := true; }
      }
    }
  }

  class Table {
    var rows: map<EventId, Row>
    constructor (rows: map<EventId, Row>) ensures this.rows == rows { this.rows := rows; }
  }

  /** What a publication transaction sends: rows it tried, each at most once, and every row it
      marks. */
  ghost predicate SentBy(was: seq<EventId>, messages: seq<EventId>, tried: map<EventId, bool>) {
    && was <= messages && Distinct(messages[|was|..])
    && (forall id :: id in messages[|was|..] ==> id in tried)
    && (forall id :: id in tried && tried[id] ==> id in messages[|was|..])
  }

  function CreatedTimes(rows: map<EventId, Row>, now: Time): map<EventId, Time> {
    map id | id in DueRows(rows, now) :: rows[id].createdAt
  }

  function Marked(tried: map<EventId, bool>): set<EventId> {
    set id | id in tried && tried[id]
  }

  ghost predicate PublishedSoFar(rows0: map<EventId, Row>, was: seq<EventId>, rows: map<EventId, Row>,
                                 messages: seq<EventId>, tried: map<EventId, bool>, published: nat, now: Time)
  {
    rows == Attempted(rows0, tried, now) && SentBy(was, messages, tried) && published == |Marked(tried)|
  }

  /** What was sent since `was` left in the order of the rows. */
  ghost predicate SentInOrder(was: seq<EventId>, messages: seq<EventId>, rank: map<EventId, Time>) {
    was <= messages && InOrder(messages[|was|..], rank)
  }

  /** The event was not published yet and its rest, if it has one, is over. */
  predicate Ready(r: Row, now: Time) {
    r.publishedAt.None? && (r.nextAttemptAt.Some? ==> r.nextAttemptAt.value <= now)
  }

  /** What a batch leaves: a row tried counts one attempt more and is published now, or rests for
      its backoff with its failure on it; any other row is as it was. */
  ghost predicate TriedOnce(rows: map<EventId, Row>, after: map<EventId, Row>, tried: map<EventId, bool>, now: Time) {
    && after.Keys == rows.Keys
    && (forall id :: id in tried ==> id in rows && Ready(rows[id], now))
    && (forall id :: id in rows && id !in tried ==> after[id] == rows[id])
    && (forall id :: id in tried ==>
          var r, r' := rows[id], after[id];
          if tried[id]
          then r' == r.(attempts := r.attempts + 1, publishedAt := Some(now), nextAttemptAt := None, failed := false)
          else r' == r.(attempts := r.attempts + 1, failed := true,
                        nextAttemptAt := Some(now + Backoff(r.attempts + 1) * SECOND)))
  }

  lemma AttemptedMeans(rows: map<EventId, Row>, tried: map<EventId, bool>, now: Time)
    requires tried.Keys <= DueRows(rows, now)
    ensures TriedOnce(rows, Attempted(rows, tried, now), tried, now)
  {
    hide Backoff;
  }

  lemma AllTried(rows: map<EventId, Row>, tried: map<EventId, bool>, now: Time, limit: nat)
    requires tried.Keys <= DueRows(rows, now) && |tried.Keys| == AtMost(limit, |DueRows(rows, now)|)
    ensures |tried.Keys| < limit ==> forall id :: id in rows && Ready(rows[id], now) ==> id in tried
  {
    if |tried.Keys| < limit {
      TakenAll(tried.Keys, DueRows(rows, now));
      assert forall id :: id in rows && Ready(rows[id], now) ==> id in DueRows(rows, now);
    }
  }

  // lines 21-45
  method PublishBatch(table: Table, channel: Channel, now: Time, limit: nat)
    returns (published: nat, ghost tried: map<EventId, bool>, ghost picked: seq<EventId>)
    modifies table, channel
    ensures FirstOf(picked, CreatedTimes(old(table.rows), now), limit) && tried.Keys == Elements(picked)
    ensures tried.Keys <= DueRows(old(table.rows), now)
    ensures |tried.Keys| == AtMost(limit, |DueRows(old(table.rows), now)|)
    ensures table.rows == Attempted(old(table.rows), tried, now)
    ensures SentBy(old(channel.messages), channel.messages, tried)
    ensures SentInOrder(old(channel.messages), channel.messages, CreatedTimes(old(table.rows), now))
    ensures published == |Marked(tried)|
    ensures TriedOnce(old(table.rows), table.rows, tried, now)
    ensures OldestFirst(old(table.rows), picked, now)
    ensures |tried.Keys| < limit ==>
              forall id :: id in old(table.rows) && Ready(old(table.rows)[id], now) ==> id in tried
  {
    hide SentBy, Attempted, Marked, Due, CreatedTimes, SentInOrder, TriedOnce, Ready, OldestFirst;
    var rows0 := table.rows;
    ghost var was, rank := channel.messages, CreatedTimes(rows0, now);
    var found := SelectFirst(CreatedTimes(rows0, now), limit);
    picked, published, tried := found, 0, map[];
    Created(rows0, now);
    NothingTried(rows0, channel.messages, now);
    NothingSent(was, rank);
    for i := 0 to |found|
      invariant tried.Keys == Elements(found[..i])
      invariant PublishedSoFar(rows0, was, table.rows, channel.messages, tried, published, now)
      invariant SentInOrder(was, channel.messages, rank)
    {
      assert found[i] in found && found[i] !in tried;
      assert found[..i + 1] == found[..i] + [found[i]];
      ghost var before := channel.messages;
      BehindAll(found, i, was, before, tried, rank);
      published, tried := PublishOne(table, channel, found[i], now, published, rows0, was, tried);
      OneMoreInOrder(was, before, channel.messages, found[i], rank);
    }
    assert found[..|found|] == found;
    CountDistinct(found);
    AttemptedMeans(rows0, tried, now);
    AllTried(rows0, tried, now, limit);
    FirstAreOldest(rows0, picked, now, limit);
  }

  /** The rows picked come oldest first, and no row that is ready and older was left out. */
  ghost predicate OldestFirst(rows: map<EventId, Row>, picked: seq<EventId>, now: Time) {
    && (forall i, j :: 0 <= i < j < |picked| && picked[i] in rows && picked[j] in rows ==>
          rows[picked[i]].createdAt <= rows[picked[j]].createdAt)
    && (forall x, y :: x in picked && x in rows && y in rows && y !in picked && Ready(rows[y], now) ==>
          rows[x].createdAt <= rows[y].createdAt)
  }

  lemma FirstAreOldest(rows: map<EventId, Row>, picked: seq<EventId>, now: Time, limit: nat)
    requires FirstOf(picked, CreatedTimes(rows, now), limit)
    ensures OldestFirst(rows, picked, now)
  {
    var rank := CreatedTimes(rows, now);
    forall x | x in picked ensures x in rank && x in rows && rank[x] == rows[x].createdAt { }
    assert forall y :: y in rows && Ready(rows[y], now) ==> y in rank && rank[y] == rows[y].createdAt;
    forall i, j | 0 <= i < j < |picked| && picked[i] in rows && picked[j] in rows
      ensures rows[picked[i]].createdAt <= rows[picked[j]].createdAt
    {
      assert picked[i] in picked && picked[j] in picked;
    }
  }

  lemma Created(rows: map<EventId, Row>, now: Time)
    ensures CreatedTimes(rows, now).Keys == DueRows(rows, now) && DueRows(rows, now) <= rows.Keys
  {
  }

  lemma NothingSent(was: seq<EventId>, rank: map<EventId, Time>)
    ensures SentInOrder(was, was, rank)
  {
  }

  /** Everything sent so far ranks no later than the row whose turn it is. */
  lemma BehindAll(found: seq<EventId>, i: nat, was: seq<EventId>, messages: seq<EventId>, tried: map<EventId, bool>,
                  rank: map<EventId, Time>)
    requires i < |found| && InOrder(found, rank) && Elements(found) <= rank.Keys
    requires SentBy(was, messages, tried) && tried.Keys == Elements(found[..i])
    ensures forall id :: id in messages[|was|..] ==> id in rank && found[i] in rank && rank[id] <= rank[found[i]]
  {
    forall id | id in messages[|was|..] ensures id in rank && found[i] in rank && rank[id] <= rank[found[i]] {
      assert id in tried.Keys && id in Elements(found[..i]);
      var j :| 0 <= j < i && found[..i][j] == id;
      assert found[j] == id && found[i] in Elements(found) && found[j] in Elements(found);
    }
  }

  lemma OneMoreInOrder(was: seq<EventId>, a: seq<EventId>, b: seq<EventId>, id: EventId, rank: map<EventId, Time>)
    requires SentInOrder(was, a, rank) && (b == a + [id] || b == a)
    requires forall x :: x in a[|was|..] ==> x in rank && id in rank && rank[x] <= rank[id]
    ensures SentInOrder(was, b, rank)
  {
    var p, q := a[|was|..], b[|was|..];
    assert q == p || q == p + [id];
    forall i, j | 0 <= i < j < |q| && q[i] in rank && q[j] in rank ensures rank[q[i]] <= rank[q[j]] {
      assert q[i] == p[i] && p[i] in p;
      assert j < |p| ==> q[j] == p[j];
    }
  }

  lemma NothingTried(rows: map<EventId, Row>, messages: seq<EventId>, now: Time)
    ensures PublishedSoFar(rows, messages, rows, messages, map[], 0, now)
  {
  }

  // for row in rows
  method PublishOne(table: Table, channel: Channel, id: EventId, now: Time, published: nat,
                    ghost rows0: map<EventId, Row>, ghost was: seq<EventId>, ghost tried: map<EventId, bool>)
    returns (published': nat, ghost tried': map<EventId, bool>)
    requires id in rows0 && id !in tried
    requires PublishedSoFar(rows0, was, table.rows, channel.messages, tried, published, now)
    modifies table, channel
    ensures tried'.Keys == tried.Keys + {id}
    ensures PublishedSoFar(rows0, was, table.rows, channel.messages, tried', published', now)
    ensures channel.messages == old(channel.messages) + [id] || channel.messages == old(channel.messages)
  {
    hide SentBy, Attempt;
    ghost var before := channel.messages;
    var ok := channel.Publish(id);
    OneMoreTried(rows0, tried, id, ok, now);
    SentOneMore(was, before, channel.messages, tried, id, ok);
    MarkRow(table, id, ok, now);
    published' := if ok then published + 1 else published;
    tried' := tried[id := ok];
  }

  // The body of the loop after the publish call.
  method MarkRow(table: Table, id: EventId, ok: bool, now: Time)
    requires id in table.rows
    modifies table
    ensures table.rows == old(table.rows)[id := Attempt(old(table.rows)[id], ok, now)]
  {
    var row := table.rows[id];
    row := row.(attempts := row.attempts + 1);
    if ok {
      row := row.(publishedAt := Some(now), nextAttemptAt := None, failed := false);
    } else {
      row := row.(failed := true);
      row := row.(nextAttemptAt := Some(now + Backoff(row.attempts) * SECOND));
    }
    table.rows := table.rows[id := row];
  }

  lemma OneMoreTried(rows: map<EventId, Row>, tried: map<EventId, bool>, id: EventId, ok: bool, now: Time)
    requires id in rows && id !in tried
    ensures Attempted(rows, tried, now)[id] == rows[id]
    ensures Attempted(rows, tried[id := ok], now) == Attempted(rows, tried, now)[id := Attempt(rows[id], ok, now)]
    ensures |Marked(tried[id := ok])| == |Marked(tried)| + if ok then 1 else 0
  {
    hide Attempt;
    assert Attempted(rows, tried[id := ok], now) == Attempted(rows, tried, now)[id := Attempt(rows[id], ok, now)];
    assert Marked(tried[id := ok]) == if ok then Marked(tried) + {id} else Marked(tried);
  }

  lemma SentOneMore(was: seq<EventId>, a: seq<EventId>, b: seq<EventId>, tried: map<EventId, bool>, id: EventId,
                    ok: bool)
    requires SentBy(was, a, tried) && id !in tried && (b == a + [id] || (!ok && b == a))
    ensures SentBy(was, b, tried[id := ok])
  {
    assert b[|was|..] == a[|was|..] || b[|was|..] == a[|was|..] + [id];
    if ok { assert b[|was|..][|b| - |was| - 1] == id; }
  }

  // ---------- whole runs ----------

  /** The table, the messages sent so far, and the ids ever inserted. */
  datatype State = State(rows: map<EventId, Row>, messages: seq<EventId>, used: set<EventId>)

  datatype Step =
    | Insert(id: EventId, createdAt: Time)
    // a committed batch, and one whose transaction was lost after its messages went out
    | Publish(now: Time, tried: map<EventId, bool>)
    | PublishLost(now: Time, tried: map<EventId, bool>)
    // maintain: DELETE … WHERE published_at < now - 30 days
    | Maintain(now: Time)

  function Kept(rows: map<EventId, Row>, now: Time): map<EventId, Row> {
    map id | id in rows && !(rows[id].publishedAt.Some? && rows[id].publishedAt.value < now - RETENTION) :: rows[id]
  }

  /** Maintenance deletes exactly the rows published more than thirty days ago. */
  lemma MaintenanceForgets(a: State, b: State, now: Time, id: EventId)
    requires Next(a, b, Maintain(now))
    ensures id in a.rows && id !in b.rows <==>
              id in a.rows && a.rows[id].publishedAt.Some? && a.rows[id].publishedAt.value + 30 * DAY < now
    ensures id in b.rows ==> id in a.rows && b.rows[id] == a.rows[id]
  {
  }

  ghost predicate Next(a: State, b: State, step: Step) {
    match step
    case Insert(id, createdAt) =>
      id !in a.used && b == State(a.rows[id := Row(createdAt, 0, None, None, false)], a.messages, a.used + {id})
    case Publish(now, tried) =>
      && tried.Keys <= DueRows(a.rows, now) && SentBy(a.messages, b.messages, tried)
      && b == State(Attempted(a.rows, tried, now), b.messages, a.used)
    case PublishLost(now, tried) =>
      tried.Keys <= DueRows(a.rows, now) && SentBy(a.messages, b.messages, tried) && b == a.(messages := b.messages)
    case Maintain(now) => b == a.(rows := Kept(a.rows, now))
  }

  ghost predicate Run(run: seq<State>, steps: seq<Step>) {
    && |run| == |steps| + 1 && run[0] == State(map[], [], {})
    && (forall i :: 0 <= i < |steps| ==> Next(run[i], run[i + 1], steps[i]))
  }

  predicate Published(s: State, id: EventId) {
    id in s.rows && s.rows[id].publishedAt.Some?
  }

  /** Known ids only; a published row was sent, and a vanished one too. */
  ghost predicate StateInv(s: State) {
    && s.rows.Keys <= s.used
    && (forall id :: id in s.rows ==> RowShape(s.rows[id]))
    && (forall id :: id in s.used && (id !in s.rows || Published(s, id)) ==> id in s.messages)
  }

  /** The event is settled: marked as published, or already deleted. */
  predicate Settled(s: State, id: EventId) {
    id in s.used && (id !in s.rows || Published(s, id))
  }

  lemma StepKeeps(a: State, b: State, step: Step)
    requires StateInv(a) && Next(a, b, step)
    ensures StateInv(b) && a.used <= b.used && a.messages <= b.messages
    ensures forall id :: Settled(a, id) ==> Settled(b, id) && id !in b.messages[|a.messages|..]
    ensures forall id :: id in a.rows && id !in b.rows ==> Published(a, id)
  {
  }

  lemma {:induction false} RunKeeps(run: seq<State>, steps: seq<Step>, i: nat)
    requires Run(run, steps) && i < |run|
    ensures StateInv(run[i])
    decreases i
  {
    if i > 0 {
      RunKeeps(run, steps, i - 1);
      StepKeeps(run[i - 1], run[i], steps[i - 1]);
    }
  }

  /** Over every run: an event that has been marked as published is never sent again, not even
      after its row is deleted, and a row disappears only after its event was sent. */
  lemma {:induction false} NeverResent(run: seq<State>, steps: seq<Step>, i: nat, j: nat, id: EventId)
    requires Run(run, steps) && i <= j < |run| && Settled(run[i], id)
    ensures Settled(run[j], id) && run[i].messages <= run[j].messages
    ensures id in run[i].messages && id !in run[j].messages[|run[i].messages|..]
    decreases j
  {
    RunKeeps(run, steps, i);
    if i < j {
      NeverResent(run, steps, i, j - 1, id);
      RunKeeps(run, steps, j - 1);
      StepKeeps(run[j - 1], run[j], steps[j - 1]);
      var a, b, c := run[i].messages, run[j - 1].messages, run[j].messages;
      assert c[|a|..] == b[|a|..] + c[|b|..];
    }
  }

  /** No event is lost: every event ever inserted is still waiting or was sent. */
  lemma NeverLost(run: seq<State>, steps: seq<Step>, i: nat, id: EventId)
    requires Run(run, steps) && i < |run| && id in run[i].used
    ensures (id in run[i].rows && run[i].rows[id].publishedAt.None?) || id in run[i].messages
  {
    RunKeeps(run, steps, i);
  }

  /** After a failed attempt a row rests for its backoff, and rests never get shorter. */
  lemma RestsBetweenAttempts(r: Row, now: Time, later: Time)
    ensures var r' := Attempt(r, false, now);
            && (r.publishedAt.None? ==> (Due(r', later) <==> later >= now + Backoff(r.attempts + 1) * SECOND))
            && SECOND <= Backoff(r.attempts + 1) * SECOND <= Backoff(r'.attempts + 1) * SECOND <= MINUTE
  {
    BackoffIsBounded(r.attempts + 1, r.attempts + 2);
  }
}

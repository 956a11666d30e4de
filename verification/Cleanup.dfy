/** backend/app/jobs/maintenance.py: the purge batch statement by statement, and the cleanup
    loop around it. */
module Cleanup {
  import opened Prelude
  import opened Storage
  import opened Reconciliation
  import opened Progress
  import opened Invariants
  import opened Store
  import opened Maintenance
  import opened PurgeResults

  /** SELECT … ORDER BY id LIMIT limit */
  method SelectExpired(db: Db, cutoff: Time, limit: nat) returns (picked: set<NoteId>)
    ensures picked <= ExpiredNotes(db, cutoff) && |picked| == AtMost(limit, |ExpiredNotes(db, cutoff)|)
    ensures forall x, y :: x in picked && y in ExpiredNotes(db, cutoff) - picked ==> x < y
  {
    var rest := ExpiredNotes(db, cutoff);
    picked := {};
    while |picked| < limit && rest != {}
      invariant picked + rest == ExpiredNotes(db, cutoff) && picked !! rest && |picked| <= limit
      invariant forall x, y :: x in picked && y in rest ==> x < y
      decreases rest
    {
      var x := Least(rest);
      rest := rest - {x};
      picked := picked + {x};
    }
    assert |picked + rest| == |picked| + |rest|;
  }

  /** The purge of the series in `emptied`, on its own. */
  function WithSeriesPurged(db: Db, emptied: set<SeriesId>, now: Time): Db {
    db.(exceptions := map k | k in db.exceptions ::
          if k.series in emptied then OccurrenceException(NO_OVERRIDES, true) else db.exceptions[k],
        series := map s | s in db.series ::
          if s in emptied then PurgeSeriesRow(db.series[s], now) else db.series[s],
        seriesTags := (set t | t in db.seriesTags && t.series !in emptied),
        templates := (set t | t in db.templates && t.series !in emptied))
  }

  /** The batch before its series pass and its events. */
  function NotesPurged(db: Db, ids: set<NoteId>, now: Time): Db {
    db.(notes := PurgedNotes(db, ids, now),
        deliveries := map dk | dk in db.deliveries ::
          if dk.rule.note in ids then Erase(db.deliveries[dk]) else db.deliveries[dk],
        notifications := map dk | dk in db.notifications ::
          if dk.rule.note in ids then db.notifications[dk].(title := PURGED, body := "") else db.notifications[dk],
        noteTags := (set t | t in db.noteTags && t.note !in ids),
        exceptions := PurgedExceptions(db, ids, {}))
  }

  lemma PurgeInTwo(db: Db, candidates: set<NoteId>, ids: set<NoteId>, order: seq<NoteId>, now: Time)
    requires Elements(order) == ids && ids <= db.notes.Keys
    requires forall i :: 0 <= i < |order| ==> order[i] in PurgedNotes(db, ids, now)
    ensures var notes := PurgedNotes(db, ids, now);
            var mid := WithSeriesPurged(NotesPurged(db, ids, now), EmptiedSeries(db, notes, candidates), now);
            PurgeTo(db, candidates, ids, order, now) == mid.(outbox := mid.outbox + PurgeEvents(notes, order))
  {
    hide EmptiedSeries, PurgeEvents, Vacated;
    var emptied := EmptiedSeries(db, PurgedNotes(db, ids, now), candidates);
    var mid := WithSeriesPurged(NotesPurged(db, ids, now), emptied, now);
    assert PurgedExceptions(db, ids, emptied) == mid.exceptions;
  }

  /** The writes for one emptied series. */
  function OneSeriesPurged(db: Db, s: SeriesId, now: Time): Db
    requires s in db.series
  {
    db.(exceptions := map k | k in db.exceptions ::
          if k.series == s then OccurrenceException(NO_OVERRIDES, true) else db.exceptions[k],
        series := db.series[s := PurgeSeriesRow(db.series[s], now)],
        seriesTags := (set t | t in db.seriesTags && t.series != s),
        templates := (set t | t in db.templates && t.series != s))
  }

  lemma OneSeries(db: Db, emptied: set<SeriesId>, s: SeriesId, now: Time)
    requires s in db.series && s !in emptied
    ensures var a := WithSeriesPurged(db, emptied, now);
            && s in a.series && a.series[s] == db.series[s] && a.notes == db.notes
            && WithSeriesPurged(db, emptied + {s}, now) == OneSeriesPurged(a, s, now)
  {
    var a, b := WithSeriesPurged(db, emptied, now), WithSeriesPurged(db, emptied + {s}, now);
    var c := OneSeriesPurged(a, s, now);
    assert b.exceptions == c.exceptions;
    assert b.series == c.series;
    assert b.seriesTags == c.seriesTags;
    assert b.templates == c.templates;
  }

  lemma NoSeries(db: Db, now: Time)
    ensures WithSeriesPurged(db, {}, now) == db
  {
  }

  predicate Emptied(notes: map<NoteId, Note>, s: SeriesId) {
    forall n | n in notes :: notes[n].seriesId == Some(s) ==> notes[n].purgedAt.Some?
  }

  // One turn of `for series_id in series_ids`.
  method PurgeIfEmpty(session: Session, s: SeriesId, now: Time)
    modifies session`db
    ensures session.db ==
              if Emptied(old(session.db).notes, s) && s in old(session.db).series
                  && old(session.db).series[s].purgedAt.None?
              then OneSeriesPurged(old(session.db), s, now) else old(session.db)
  {
    var db := session.db;
    var hasUnpurged := exists n :: n in db.notes && db.notes[n].seriesId == Some(s) && db.notes[n].purgedAt.None?;
    if !hasUnpurged && s in db.series && db.series[s].purgedAt.None? {
      db := db.(seriesTags := (set t | t in db.seriesTags && t.series != s));
      db := db.(templates := (set t | t in db.templates && t.series != s));
      db := db.(exceptions := map k | k in db.exceptions ::
                  if k.series == s then OccurrenceException(NO_OVERRIDES, true) else db.exceptions[k]);
      db := db.(series := db.series[s := PurgeSeriesRow(db.series[s], now)]);
      session.db := db;
    }
  }

  // for series_id in series_ids (lines 126-153)
  method PurgeEmptySeries(session: Session, candidates: set<NoteId>, now: Time, ghost db0: Db)
    requires session.db.notes.Keys == db0.notes.Keys && session.db.series == db0.series
    requires forall n :: n in db0.notes ==> session.db.notes[n].seriesId == db0.notes[n].seriesId
    modifies session`db
    ensures session.db == WithSeriesPurged(old(session.db), EmptiedSeries(db0, old(session.db).notes, candidates), now)
  {
    hide WithSeriesPurged, OneSeriesPurged, EmptiedSeries, Emptied;
    ghost var start := session.db;
    ghost var emptied := EmptiedSeries(db0, start.notes, candidates);
    var ids := Listing(set n | n in candidates && n in session.db.notes && session.db.notes[n].seriesId.Some?
                               :: session.db.notes[n].seriesId.value);
    ghost var done: set<SeriesId> := {};
    NoSeries(start, now);
    for i := 0 to |ids|
      invariant done == set s | s in emptied && s in ids[..i]
      invariant session.db == WithSeriesPurged(start, done, now)
    {
      var s := ids[i];
      assert s in Elements(ids) && s !in ids[..i];
      assert ids[..i + 1] == ids[..i] + [s];
      EmptiedWhen(db0, start.notes, candidates, s);
      if s in start.series { OneSeries(start, done, s, now); }
      SameKeys(start, done, now);
      PurgeIfEmpty(session, s, now);
      if s in emptied { done := done + {s}; }
    }
    assert ids[..|ids|] == ids;
    assert done == emptied by {
      forall s | s in emptied ensures s in Elements(ids) { EmptiedWhen(db0, start.notes, candidates, s); }
    }
  }

  lemma SameKeys(db: Db, emptied: set<SeriesId>, now: Time)
    ensures var a := WithSeriesPurged(db, emptied, now); a.series.Keys == db.series.Keys && a.notes == db.notes
  {
  }

  lemma EmptiedWhen(db: Db, notes: map<NoteId, Note>, candidates: set<NoteId>, s: SeriesId)
    requires notes.Keys == db.notes.Keys
    requires forall n :: n in db.notes ==> notes[n].seriesId == db.notes[n].seriesId
    ensures s in EmptiedSeries(db, notes, candidates) <==>
      && (exists n :: n in candidates && n in notes && notes[n].seriesId == Some(s))
      && s in db.series && db.series[s].purgedAt.None? && Emptied(notes, s)
  {
  }

  /** One batch did what the specification says, or was rejected and rolled back. */
  ghost predicate BatchOutcome(before: Db, after: Db, picked: set<NoteId>, order: seq<NoteId>,
                               cutoff: Time, now: Time, committed: bool)
  {
    && Elements(order) == Targets(before, picked, cutoff) && Distinct(order)
    && picked <= ExpiredNotes(before, cutoff)
    && (match Purge(before, picked, order, cutoff, now)
        case Some(db) => committed && after == db
        case None => !committed && after == before)
  }

  // lines 31-175
  method PurgeTrash(session: Session, cutoff: Time, now: Time, limit: nat)
    returns (changed: nat, committed: bool, ghost picked: set<NoteId>, ghost order: seq<NoteId>)
    modifies session`db
    ensures BatchOutcome(old(session.db), session.db, picked, order, cutoff, now, committed)
    ensures |picked| == AtMost(limit, |ExpiredNotes(old(session.db), cutoff)|)
    ensures changed == |order| == |Elements(order)|
  {
    hide Candidates, PurgeTo, Expired;
    var db := session.db;
    var direct := SelectExpired(db, cutoff, limit);
    picked := direct;
    var candidates := Candidates(db, direct);
    var ids := candidates * ExpiredNotes(db, cutoff);
    assert ids == Targets(db, picked, cutoff);
    var notes := Listing(ids);
    order := notes;
    CountDistinct(notes);
    changed := |notes|;
    if exists dk :: dk in db.deliveries && dk.rule.note in ids && db.deliveries[dk].state.AttemptStarted? {
      committed := false;
      return;
    }
    committed := true;
    RunBatch(session, candidates, ids, notes, now);
  }

  method RunBatch(session: Session, candidates: set<NoteId>, ids: set<NoteId>, notes: seq<NoteId>, now: Time)
    requires Elements(notes) == ids && Distinct(notes) && ids <= session.db.notes.Keys
    modifies session`db
    ensures session.db == PurgeTo(old(session.db), candidates, ids, notes, now)
  {
    hide Vacated, EmptiedSeries, WithSeriesPurged, Erase, PurgedExceptions, PurgeEvents, PurgeTo;
    ghost var db := session.db;
    assert forall i :: 0 <= i < |notes| ==> notes[i] in Elements(notes);
    RedactNotes(session, notes, now);
    RedactHistory(session, ids, db, now);
    PurgeEmptySeries(session, candidates, now, db);
    SameKeys(NotesPurged(db, ids, now), EmptiedSeries(db, PurgedNotes(db, ids, now), candidates), now);
    EmitPurged(session, notes);
    PurgeInTwo(db, candidates, ids, notes, now);
  }

  // for note in notes (lines 96-98)
  method RedactNotes(session: Session, notes: seq<NoteId>, now: Time)
    requires Distinct(notes) && Elements(notes) <= session.db.notes.Keys
    modifies session`db
    ensures session.db == old(session.db).(notes := PurgedNotes(old(session.db), Elements(notes), now))
  {
    ghost var db := session.db;
    assert PurgedNotes(db, {}, now) == db.notes;
    for i := 0 to |notes|
      invariant session.db == db.(notes := PurgedNotes(db, Elements(notes[..i]), now))
    {
      var n := notes[i];
      assert n in Elements(notes) && n !in Elements(notes[..i]);
      assert notes[..i + 1] == notes[..i] + [n];
      assert Elements(notes[..i + 1]) == Elements(notes[..i]) + {n};
      RedactedOne(db, Elements(notes[..i]), n, now);
      var note := session.db.notes[n];
      note := note.(title := PURGED, body := "", purgedAt := Some(now), action := None, version := note.version + 1);
      session.db := session.db.(notes := session.db.notes[n := note]);
    }
    assert notes[..|notes|] == notes;
  }

  lemma RedactedOne(db: Db, done: set<NoteId>, n: NoteId, now: Time)
    requires n in db.notes && n !in done
    ensures PurgedNotes(db, done, now)[n] == db.notes[n]
    ensures PurgedNotes(db, done + {n}, now) == PurgedNotes(db, done, now)[n := PurgeRow(db.notes[n], now)]
  {
  }

  // the set-wide updates (lines 99-124)
  method RedactHistory(session: Session, ids: set<NoteId>, ghost db: Db, ghost now: Time)
    requires session.db == db.(notes := PurgedNotes(db, ids, now))
    modifies session`db
    ensures session.db == NotesPurged(db, ids, now)
  {
    hide Vacated, PurgeRow, Erase;
    var d := session.db;
    var deliveries := map dk | dk in d.deliveries ::
      if dk.rule.note in ids then Erase(d.deliveries[dk]) else d.deliveries[dk];
    var notifications := map dk | dk in d.notifications ::
      if dk.rule.note in ids then d.notifications[dk].(title := PURGED, body := "") else d.notifications[dk];
    var noteTags := set t | t in d.noteTags && t.note !in ids;
    var exceptions := RedactExceptions(d, ids);
    assert deliveries == NotesPurged(db, ids, now).deliveries;
    assert notifications == NotesPurged(db, ids, now).notifications;
    SameVacancies(db, d, ids, now);
    session.db := d.(deliveries := deliveries, notifications := notifications, noteTags := noteTags,
                     exceptions := exceptions);
  }

  function RedactExceptions(db: Db, ids: set<NoteId>): map<SlotKey, OccurrenceException> {
    map k | k in db.exceptions ::
      if Vacated(db, ids, k) then db.exceptions[k].(overridden := NO_OVERRIDES) else db.exceptions[k]
  }

  lemma SameVacancies(db: Db, d: Db, ids: set<NoteId>, now: Time)
    requires d == db.(notes := PurgedNotes(db, ids, now))
    ensures RedactExceptions(d, ids) == PurgedExceptions(db, ids, {})
  {
  }

  method EmitPurged(session: Session, notes: seq<NoteId>)
    requires forall i :: 0 <= i < |notes| ==> notes[i] in session.db.notes
    modifies session`db
    ensures session.db == old(session.db).(outbox := old(session.db).outbox + PurgeEvents(old(session.db).notes, notes))
  {
    var events := [];
    for i := 0 to |notes|
      invariant events == PurgeEvents(session.db.notes, notes[..i])
    {
      var note := session.db.notes[notes[i]];
      events := events + [Event(NoteDeleted, NoteEntity(notes[i]), note.version)];
    }
    assert notes[..|notes|] == notes;
    session.db := session.db.(outbox := session.db.outbox + events);
  }

  // ---------- cleanup_trash ----------

  /** What the batches so far did to the store `db0` they started from: exactly the notes in
      `done` are purged, each with one event, and what is still expired was expired then. */
  ghost predicate Cleaned(db0: Db, db: Db, done: seq<NoteId>, cutoff: Time, now: Time) {
    && Distinct(done) && Elements(done) <= ExpiredNotes(db0, cutoff)
    && db.notes == PurgedNotes(db0, Elements(done), now)
    && (forall i :: 0 <= i < |done| ==> done[i] in db.notes)
    && db.outbox == db0.outbox + PurgeEvents(db.notes, done)
    && ExpiredNotes(db, cutoff) == ExpiredNotes(db0, cutoff) - Elements(done)
  }

  ghost predicate SameStates(a: Db, b: Db) {
    && b.deliveries.Keys == a.deliveries.Keys
    && (forall dk :: dk in a.deliveries ==> b.deliveries[dk].state == a.deliveries[dk].state)
  }

  lemma NothingCleaned(db: Db, cutoff: Time, now: Time)
    ensures Cleaned(db, db, [], cutoff, now) && SameStates(db, db)
  {
  }

  lemma BatchCleans(db0: Db, db: Db, done: seq<NoteId>, picked: set<NoteId>, order: seq<NoteId>, cutoff: Time,
                    now: Time)
    requires Cleaned(db0, db, done, cutoff, now) && Distinct(order)
    requires Elements(order) == Targets(db, picked, cutoff) && Purge(db, picked, order, cutoff, now).Some?
    ensures Cleaned(db0, Purge(db, picked, order, cutoff, now).value, done + order, cutoff, now)
  {
    hide EmptiedSeries, PurgedExceptions, Candidates, Vacated;
    var c := Purge(db, picked, order, cutoff, now).value;
    var both := done + order;
    assert Elements(both) == Elements(done) + Elements(order);
    assert forall i :: 0 <= i < |order| ==> order[i] in Elements(order);
    assert c.notes == PurgedNotes(db0, Elements(both), now);
    EventsStand(db, c, done, order);
    assert c.outbox == db0.outbox + PurgeEvents(c.notes, both);
    assert forall i, j :: 0 <= i < |done| && 0 <= j < |order| ==> done[i] != order[j] by {
      assert forall i :: 0 <= i < |done| ==> done[i] in Elements(done);
    }
    Shrinks(db, c, order, cutoff, now);
  }

  lemma Shrinks(db: Db, c: Db, order: seq<NoteId>, cutoff: Time, now: Time)
    requires c.notes == PurgedNotes(db, Elements(order), now)
    ensures ExpiredNotes(c, cutoff) == ExpiredNotes(db, cutoff) - Elements(order)
  {
    forall n ensures n in ExpiredNotes(c, cutoff) <==> n in ExpiredNotes(db, cutoff) - Elements(order) {
    }
  }

  /** A purged row is not written again, so the versions announced before still stand. */
  lemma EventsStand(a: Db, b: Db, done: seq<NoteId>, order: seq<NoteId>)
    requires forall i :: 0 <= i < |done| ==>
               done[i] in a.notes && done[i] in b.notes && b.notes[done[i]] == a.notes[done[i]]
    requires forall i :: 0 <= i < |order| ==> order[i] in b.notes
    ensures PurgeEvents(b.notes, done + order) == PurgeEvents(a.notes, done) + PurgeEvents(b.notes, order)
  {
  }

  lemma BatchStates(db: Db, picked: set<NoteId>, order: seq<NoteId>, cutoff: Time, now: Time)
    requires Elements(order) == Targets(db, picked, cutoff) && Purge(db, picked, order, cutoff, now).Some?
    ensures SameStates(db, Purge(db, picked, order, cutoff, now).value)
  {
  }

  /** Every commit of the cleanup: in order, and cleaned from the store the job started on. */
  ghost predicate Committed(db0: Db, db: Db, cutoff: Time, now: Time) {
    Keeps(db0, db) && exists done :: Cleaned(db0, db, done, cutoff, now)
  }

  lemma KeepsItself(db: Db)
    requires StoreInv(db)
    ensures Keeps(db, db)
  {
    hide StoreInv;
    AdvancesReflexive(db);
  }

  lemma NextBatch(db0: Db, a: Db, b: Db, done: seq<NoteId>, picked: set<NoteId>, order: seq<NoteId>, cutoff: Time,
                  now: Time)
    requires StoreInv(a) && Keeps(db0, a) && Cleaned(db0, a, done, cutoff, now) && SameStates(db0, a)
    requires !InFlight(db0, Elements(done)) && BatchOutcome(a, b, picked, order, cutoff, now, true)
    ensures StoreInv(b) && Keeps(db0, b) && Cleaned(db0, b, done + order, cutoff, now) && SameStates(db0, b)
    ensures !InFlight(db0, Elements(done + order)) && Distinct(done + order)
    ensures Committed(db0, b, cutoff, now)
  {
    hide StoreInv, Advances, Cleaned, Targets, PurgeTo, ExpiredNotes;
    PurgeKeeps(a, picked, order, cutoff, now);
    AdvancesTransitive(db0, a, b);
    BatchCleans(db0, a, done, picked, order, cutoff, now);
    BatchStates(a, picked, order, cutoff, now);
    assert Elements(done + order) == Elements(done) + Elements(order);
    assert Distinct(done + order) by { CleanedOrder(db0, b, done + order, cutoff, now); }
  }

  lemma CleanedOrder(db0: Db, db: Db, done: seq<NoteId>, cutoff: Time, now: Time)
    requires Cleaned(db0, db, done, cutoff, now)
    ensures Distinct(done) && Elements(done) <= ExpiredNotes(db0, cutoff)
    ensures ExpiredNotes(db, cutoff) == ExpiredNotes(db0, cutoff) - Elements(done)
  {
  }

  lemma StillInFlight(db0: Db, db: Db, done: seq<NoteId>, picked: set<NoteId>, order: seq<NoteId>, cutoff: Time,
                      now: Time)
    requires Cleaned(db0, db, done, cutoff, now) && SameStates(db0, db)
    requires BatchOutcome(db, db, picked, order, cutoff, now, false)
    ensures InFlight(db0, ExpiredNotes(db0, cutoff))
  {
  }

  /** A full batch makes progress; a short one leaves nothing expired. */
  lemma Progressed(db0: Db, a: Db, b: Db, done: seq<NoteId>, picked: set<NoteId>, order: seq<NoteId>,
                   cutoff: Time, now: Time, limit: nat)
    requires limit >= 1 && Cleaned(db0, a, done, cutoff, now) && Cleaned(db0, b, done + order, cutoff, now)
    requires BatchOutcome(a, b, picked, order, cutoff, now, true)
    requires |picked| == AtMost(limit, |ExpiredNotes(a, cutoff)|)
    ensures |order| < limit ==> (ExpiredNotes(b, cutoff) == {} && Elements(done + order) == ExpiredNotes(db0, cutoff))
    ensures |order| >= limit ==> ExpiredNotes(b, cutoff) < ExpiredNotes(a, cutoff)
  {
    hide Cleaned, BatchOutcome, ExpiredNotes;
    CleanedOrder(db0, a, done, cutoff, now);
    CleanedOrder(db0, b, done + order, cutoff, now);
    assert Elements(done + order) == Elements(done) + Elements(order);
    PickedFirst(a, b, picked, order, cutoff, now);
    if |order| < limit { TakenAll(picked, ExpiredNotes(a, cutoff)); }
    else { assert order[0] in Elements(order); }
  }

  lemma PickedFirst(a: Db, b: Db, picked: set<NoteId>, order: seq<NoteId>, cutoff: Time, now: Time)
    requires BatchOutcome(a, b, picked, order, cutoff, now, true)
    ensures picked <= Elements(order) <= ExpiredNotes(a, cutoff) && |picked| <= |order|
  {
    hide PurgeTo, ExpiredNotes;
    CountDistinct(order);
    assert picked <= Elements(order);
    Fewer(picked, Elements(order));
  }

  lemma Fewer(a: set<int>, b: set<int>)
    requires a <= b
    ensures |a| <= |b|
  {
    assert b == a + (b - a);
  }

  /** Every note that was past retention is redacted now, and every other note is as it was. */
  ghost predicate Swept(db0: Db, db: Db, cutoff: Time, now: Time) {
    && db.notes.Keys == db0.notes.Keys
    && forall n :: n in db0.notes ==>
         if PastRetention(db0.notes[n], cutoff) then IsRedaction(db0.notes[n], db.notes[n], now)
         else db.notes[n] == db0.notes[n]
  }

  /** A worker has not reported on a reminder of a note that is past retention. */
  predicate Unreported(db: Db, cutoff: Time) {
    exists dk :: dk in db.deliveries && db.deliveries[dk].state.AttemptStarted? && dk.rule.note in db.notes
                 && PastRetention(db.notes[dk.rule.note], cutoff)
  }

  lemma RolledBack(a: Db, b: Db, picked: set<NoteId>, order: seq<NoteId>, cutoff: Time, now: Time)
    requires BatchOutcome(a, b, picked, order, cutoff, now, false)
    ensures b == a
  {
    hide Purge, Targets, ExpiredNotes;
  }

  lemma CommittedAtOnce(db: Db, cutoff: Time, now: Time)
    requires StoreInv(db)
    ensures Committed(db, db, cutoff, now)
  {
    hide StoreInv, Keeps, Cleaned;
    NothingCleaned(db, cutoff, now);
    KeepsItself(db);
  }

  lemma SweptAll(db0: Db, db: Db, done: seq<NoteId>, cutoff: Time, now: Time)
    requires Cleaned(db0, db, done, cutoff, now) && Elements(done) == ExpiredNotes(db0, cutoff)
    ensures Swept(db0, db, cutoff, now)
  {
    hide ExpiredNotes, PurgeEvents, PastRetention;
    ExpiredMeans(db0, cutoff);
  }

  lemma UnreportedMeans(db: Db, cutoff: Time)
    ensures InFlight(db, ExpiredNotes(db, cutoff)) <==> Unreported(db, cutoff)
  {
    hide ExpiredNotes, PastRetention;
    ExpiredMeans(db, cutoff);
  }

  // lines 178-186; `limit` is the 10 000 of the source
  method CleanupTrash(session: Session, cutoff: Time, now: Time, limit: nat)
    returns (total: nat, finished: bool, ghost commits: seq<Db>, ghost done: seq<NoteId>)
    requires StoreInv(session.db) && limit >= 1
    modifies session`db
    ensures finished <==> !InFlight(old(session.db), ExpiredNotes(old(session.db), cutoff))
    ensures Cleaned(old(session.db), session.db, done, cutoff, now)
    ensures finished ==>
              ExpiredNotes(session.db, cutoff) == {} && Elements(done) == ExpiredNotes(old(session.db), cutoff)
    ensures finished ==> total == |ExpiredNotes(old(session.db), cutoff)|
    ensures commits != [] && commits[|commits| - 1] == session.db
    ensures forall c :: c in commits ==> Committed(old(session.db), c, cutoff, now)
    ensures finished <==> !Unreported(old(session.db), cutoff)
    ensures finished ==> Swept(old(session.db), session.db, cutoff, now)
  {
    hide Keeps, StoreInv, Cleaned, SameStates, ExpiredNotes, Purge, Unreported, Swept, Committed, BatchOutcome;
    ghost var db0 := session.db;
    UnreportedMeans(db0, cutoff);
    total, done, commits := 0, [], [db0];
    NothingCleaned(db0, cutoff, now);
    KeepsItself(db0);
    CommittedAtOnce(db0, cutoff, now);
    while true
      invariant StoreInv(session.db) && Keeps(db0, session.db)
      invariant Cleaned(db0, session.db, done, cutoff, now) && SameStates(db0, session.db)
      invariant total == |done| && !InFlight(db0, Elements(done)) && Distinct(done)
      invariant commits != [] && commits[|commits| - 1] == session.db
      invariant forall c :: c in commits ==> Committed(db0, c, cutoff, now)
      decreases ExpiredNotes(session.db, cutoff)
    {
      ghost var before := session.db;
      var changed, committed;
      ghost var picked, order;
      changed, committed, picked, order := PurgeTrash(session, cutoff, now, limit);
      if !committed {
        RolledBack(before, session.db, picked, order, cutoff, now);
        StillInFlight(db0, before, done, picked, order, cutoff, now);
        finished := false;
        return;
      }
      NextBatch(db0, before, session.db, done, picked, order, cutoff, now);
      Progressed(db0, before, session.db, done, picked, order, cutoff, now, limit);
      total := total + changed;
      done := done + order;
      commits := commits + [session.db];
      if changed < limit {
        finished := true;
        CountDistinct(done);
        SweptAll(db0, session.db, done, cutoff, now);
        return;
      }
    }
  }

  /** At every commit each trash action that was open when the job began is wholly purged or
      wholly intact, however many batches its expiry takes. */
  lemma WholeOrNone(db0: Db, db: Db, cutoff: Time, now: Time, a: ActionId)
    requires StoreInv(db0) && Committed(db0, db, cutoff, now) && a in db0.actions && OpenAction(db0, a)
    ensures || (forall m :: m in db0.members && m.action == a ==> Purged(db, m.note))
            || (forall m :: m in db0.members && m.action == a ==> Pinned(db, a, m.note))
  {
    hide ReminderInv, SlotInv, RedactionInv, PurgeEvents, ExpiredNotes;
    assert ActionAdvances(db0, db, a);
    OpenOrClosed(db, a);
    if Closed(db, a) {
      var done :| Cleaned(db0, db, done, cutoff, now);
      forall m | m in db0.members && m.action == a ensures Purged(db, m.note) {
        assert Pinned(db0, a, m.note);
      }
    }
  }

  /** The cleanup purges nothing that was deleted after the cutoff, and each note once. */
  lemma LaterTrashUntouched(db0: Db, db: Db, done: seq<NoteId>, cutoff: Time, now: Time, n: NoteId)
    requires Cleaned(db0, db, done, cutoff, now) && n in db0.notes
    ensures !Expired(db0.notes[n], cutoff) ==> db.notes[n] == db0.notes[n]
    ensures Expired(db0.notes[n], cutoff) ==>
              (db.notes[n] == db0.notes[n] || db.notes[n] == PurgeRow(db0.notes[n], now))
    ensures db.notes[n] == PurgeRow(db0.notes[n], now) && db.notes[n] != db0.notes[n] ==> n in done
  {
    hide PurgeEvents;
    assert n in ExpiredNotes(db0, cutoff) <==> Expired(db0.notes[n], cutoff);
  }
}

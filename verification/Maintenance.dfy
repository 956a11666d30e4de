/** backend/app/jobs/maintenance.py: permanent removal of expired trash. */
module Maintenance {
  import opened Prelude
  import opened Storage
  import opened Reconciliation
  import opened Progress
  import opened Invariants
  import opened Lineage
  import opened Store

  predicate Expired(n: Note, cutoff: Time) {
    n.deletedAt.Some? && n.deletedAt.value <= cutoff && n.purgedAt.None?
  }

  function ExpiredNotes(db: Db, cutoff: Time): set<NoteId> {
    set n | n in db.notes && Expired(db.notes[n], cutoff)
  }

  /** The actions that the bounded query ran into. */
  function ActionsOf(db: Db, picked: set<NoteId>): set<ActionId> {
    set n | n in picked && n in db.notes && db.notes[n].action.Some? :: db.notes[n].action.value
  }

  /** The picked notes, and every current member of an action one of them belongs to. */
  function Candidates(db: Db, picked: set<NoteId>): set<NoteId> {
    picked + set m | m in db.members && m.action in ActionsOf(db, picked) && m.note in db.notes
                     && db.notes[m.note].action == Some(m.action) :: m.note
  }

  function Targets(db: Db, picked: set<NoteId>, cutoff: Time): (ids: set<NoteId>)
    ensures ids <= db.notes.Keys
  {
    Candidates(db, picked) * ExpiredNotes(db, cutoff)
  }

  function PurgeRow(n: Note, now: Time): Note {
    n.(title := PURGED, body := "", purgedAt := Some(now), action := None, version := n.version + 1)
  }

  function PurgedNotes(db: Db, ids: set<NoteId>, now: Time): map<NoteId, Note> {
    map n | n in db.notes :: if n in ids then PurgeRow(db.notes[n], now) else db.notes[n]
  }

  function Erase(d: Delivery): Delivery {
    d.(content := None, recipient := None)
  }

  /** The series of the candidates that have no unpurged note left. */
  function EmptiedSeries(db: Db, notes: map<NoteId, Note>, candidates: set<NoteId>): set<SeriesId> {
    set n | n in candidates && n in db.notes && db.notes[n].seriesId.Some?
            && db.notes[n].seriesId.value in db.series && db.series[db.notes[n].seriesId.value].purgedAt.None?
            && (forall x | x in notes :: notes[x].seriesId == db.notes[n].seriesId ==> notes[x].purgedAt.Some?)
         :: db.notes[n].seriesId.value
  }

  function PurgeSeriesRow(s: Series, now: Time): Series {
    s.(localStart := EPOCH, timezone := "UTC", frequency := Daily, endDate := EPOCH_DAY,
       title := PURGED, body := "", active := false, purgedAt := Some(now), version := s.version + 1)
  }

  predicate Vacated(db: Db, ids: set<NoteId>, k: SlotKey) {
    exists n :: n in ids && n in db.notes && InSlot(db.notes[n], k)
  }

  function PurgedExceptions(db: Db, ids: set<NoteId>, emptied: set<SeriesId>): map<SlotKey, OccurrenceException> {
    map k | k in db.exceptions ::
      if k.series in emptied then OccurrenceException(NO_OVERRIDES, true)
      else if Vacated(db, ids, k) then db.exceptions[k].(overridden := NO_OVERRIDES)
      else db.exceptions[k]
  }

  function PurgeEvents(notes: map<NoteId, Note>, order: seq<NoteId>): seq<Event>
    requires forall i :: 0 <= i < |order| ==> order[i] in notes
  {
    seq(|order|, i requires 0 <= i < |order| => Event(NoteDeleted, NoteEntity(order[i]), notes[order[i]].version))
  }

  /** The store after one batch: `ids` are the notes it purges, in `order`. */
  function PurgeTo(db: Db, candidates: set<NoteId>, ids: set<NoteId>, order: seq<NoteId>, now: Time): Db
    requires Elements(order) == ids && ids <= db.notes.Keys
  {
    var notes := PurgedNotes(db, ids, now);
    var emptied := EmptiedSeries(db, notes, candidates);
    assert forall i :: 0 <= i < |order| ==> order[i] in Elements(order);
    db.(notes := notes,
        deliveries := map dk | dk in db.deliveries ::
          if dk.rule.note in ids then Erase(db.deliveries[dk]) else db.deliveries[dk],
        notifications := map dk | dk in db.notifications ::
          if dk.rule.note in ids then db.notifications[dk].(title := PURGED, body := "") else db.notifications[dk],
        noteTags := (set t | t in db.noteTags && t.note !in ids),
        exceptions := PurgedExceptions(db, ids, emptied),
        series := map s | s in db.series ::
          if s in emptied then PurgeSeriesRow(db.series[s], now) else db.series[s],
        seriesTags := (set t | t in db.seriesTags && t.series !in emptied),
        templates := (set t | t in db.templates && t.series !in emptied),
        outbox := db.outbox + PurgeEvents(notes, order))
  }

  /** Erasing the snapshots of a delivery in flight breaks ck_delivery_state_shape. */
  predicate InFlight(db: Db, ids: set<NoteId>) {
    exists dk :: dk in db.deliveries && dk.rule.note in ids && db.deliveries[dk].state.AttemptStarted?
  }

  /** purge_trash commits, unless the shape constraint rejects the erasure. */
  function Purge(db: Db, picked: set<NoteId>, order: seq<NoteId>, cutoff: Time, now: Time): Option<Db>
    requires Elements(order) == Targets(db, picked, cutoff)
  {
    if InFlight(db, Targets(db, picked, cutoff)) then None
    else Some(PurgeTo(db, Candidates(db, picked), Targets(db, picked, cutoff), order, now))
  }

  // ---------- what a batch owes ----------

  lemma ExpiredIsSettled(db: Db, dk: DeliveryKey)
    requires OpenIsDeliverable(db) && dk in db.deliveries
    requires dk.rule.note in db.notes && db.notes[dk.rule.note].deletedAt.Some?
    ensures !Open(db.deliveries[dk])
  {
  }

  lemma EraseShape(d: Delivery)
    requires Shape(d) && !Open(d)
    ensures Shape(Erase(d)) <==> !d.state.AttemptStarted?
    ensures DeliveryAdvances(d, Erase(d)) && !Open(Erase(d))
  {
  }

  /** The shape constraint rejects the batch exactly when a purged note has a delivery whose
      worker has not reported. */
  lemma AbortsExactlyInFlight(db: Db, picked: set<NoteId>, order: seq<NoteId>, cutoff: Time, now: Time)
    requires Elements(order) == Targets(db, picked, cutoff) && ReminderInv(db)
    ensures var c := PurgeTo(db, Candidates(db, picked), Targets(db, picked, cutoff), order, now);
            Purge(db, picked, order, cutoff, now).None? <==> !Shaped(c)
  {
    hide Scheduled, Numbered, Notified, EmptiedSeries, PurgedExceptions, PurgeEvents, Candidates;
    var ids := Targets(db, picked, cutoff);
    var c := PurgeTo(db, Candidates(db, picked), ids, order, now);
    forall dk | dk in db.deliveries
      ensures Shape(c.deliveries[dk]) <==> !(dk.rule.note in ids && db.deliveries[dk].state.AttemptStarted?)
    {
      assert Shape(db.deliveries[dk]);
      if dk.rule.note in ids {
        ExpiredIsSettled(db, dk);
        EraseShape(db.deliveries[dk]);
      }
    }
  }

  lemma PurgeReminders(db: Db, picked: set<NoteId>, order: seq<NoteId>, cutoff: Time, now: Time)
    requires Elements(order) == Targets(db, picked, cutoff) && ReminderInv(db)
    requires Purge(db, picked, order, cutoff, now).Some?
    ensures var c := Purge(db, picked, order, cutoff, now).value;
            ReminderInv(c) && DeliveriesAdvance(db, c) && RulesAdvance(db, c) && NotesAdvance(db, c)
  {
    hide EmptiedSeries, PurgedExceptions, PurgeEvents, Candidates, Targets, Shaped, Numbered, Scheduled, Notified,
         OpenIsDeliverable, DeliveriesAdvance, PurgeTo;
    var ids := Targets(db, picked, cutoff);
    AbortsExactlyInFlight(db, picked, order, cutoff, now);
    PurgeTables(db, Candidates(db, picked), ids, order, now);
    PurgeRows(db, picked, order, cutoff, now);
    PurgeNotesAdvance(db, picked, order, cutoff, now);
  }

  lemma PurgeNotesAdvance(db: Db, picked: set<NoteId>, order: seq<NoteId>, cutoff: Time, now: Time)
    requires Elements(order) == Targets(db, picked, cutoff) && RulesOwned(db)
    requires Purge(db, picked, order, cutoff, now).Some?
    ensures var c := Purge(db, picked, order, cutoff, now).value;
            RulesOwned(c) && RulesAdvance(db, c) && NotesAdvance(db, c)
  {
  }

  lemma PurgeRows(db: Db, picked: set<NoteId>, order: seq<NoteId>, cutoff: Time, now: Time)
    requires Elements(order) == Targets(db, picked, cutoff) && OpenIsDeliverable(db) && Shaped(db)
    requires Purge(db, picked, order, cutoff, now).Some?
    ensures var c := Purge(db, picked, order, cutoff, now).value; DeliveriesAdvance(db, c) && OpenIsDeliverable(c)
  {
    hide EmptiedSeries, PurgedExceptions, PurgeEvents, Candidates, Shaped, Erase;
    var ids := Targets(db, picked, cutoff);
    var c := Purge(db, picked, order, cutoff, now).value;
    forall dk | dk in db.deliveries ensures DeliveryAdvances(db.deliveries[dk], c.deliveries[dk])
                                    ensures Open(c.deliveries[dk]) ==> Open(db.deliveries[dk]) && dk.rule.note !in ids
    {
      if dk.rule.note in ids {
        ExpiredIsSettled(db, dk);
        ShapeOf(db, dk);
        EraseShape(db.deliveries[dk]);
      }
    }
    forall dk | dk in c.deliveries && Open(c.deliveries[dk]) ensures Deliverable(c, dk) {
      assert Deliverable(db, dk);
    }
  }

  lemma ShapeOf(db: Db, dk: DeliveryKey)
    requires Shaped(db) && dk in db.deliveries
    ensures Shape(db.deliveries[dk])
  {
  }

  lemma PurgeTables(db: Db, candidates: set<NoteId>, ids: set<NoteId>, order: seq<NoteId>, now: Time)
    requires Elements(order) == ids && ids <= db.notes.Keys && RulesOwned(db)
    requires Numbered(db) && Scheduled(db) && Notified(db)
    ensures var c := PurgeTo(db, candidates, ids, order, now); Numbered(c) && Scheduled(c) && Notified(c)
  {
    hide EmptiedSeries, PurgedExceptions, PurgeEvents;
    var c := PurgeTo(db, candidates, ids, order, now);
    assert c.deliveries.Keys == db.deliveries.Keys;
    assert Numbered(c);
    forall k | k in c.rules && c.rules[k].enabled && CurrentKey(c, k) in c.deliveries && k.note in c.notes
      ensures c.deliveries[CurrentKey(c, k)].dueAt == DueAt(c.notes[k.note].startsAt, k.offset)
    {
      assert CurrentKey(c, k) == CurrentKey(db, k);
    }
  }

  /** An action is purged whole: a batch that meets one member takes all of them. */
  lemma PurgedTogether(db: Db, picked: set<NoteId>, cutoff: Time, a: ActionId, m: NoteId, n: NoteId)
    requires TrashInv(db) && picked <= ExpiredNotes(db, cutoff)
    requires m in Targets(db, picked, cutoff) && db.notes[m].action == Some(a) && Membership(a, n) in db.members
    ensures n in Targets(db, picked, cutoff) && Pinned(db, a, n)
  {
    assert PointsHome(db, m);
    assert Membership(a, m) in db.members && Membership(a, m).note == m;
    if m in picked { assert a in ActionsOf(db, picked); }
    var mm, mn := Membership(a, m), Membership(a, n);
    assert Pinned(db, mm.action, mm.note) && Pinned(db, mn.action, mn.note);
    assert a in ActionsOf(db, picked);
    assert mn in db.members && mn.note == n;
  }

  lemma PurgeTrashInv(db: Db, picked: set<NoteId>, order: seq<NoteId>, cutoff: Time, now: Time)
    requires Elements(order) == Targets(db, picked, cutoff) && TrashInv(db)
    requires picked <= ExpiredNotes(db, cutoff)
    ensures var c := PurgeTo(db, Candidates(db, picked), Targets(db, picked, cutoff), order, now);
            TrashInv(c) && ActionsAdvance(db, c)
  {
    hide EmptiedSeries, PurgedExceptions, PurgeEvents, Targets;
    var ids := Targets(db, picked, cutoff);
    var c := PurgeTo(db, Candidates(db, picked), ids, order, now);
    forall n | n in c.notes ensures PointsHome(c, n) { assert PointsHome(db, n); }
    forall m | m in c.members ensures Enrolled(c, m) { assert Enrolled(db, m); }
    forall a | a in c.actions ensures Sound(c, a) { assert Sound(db, a); }
    forall m, n | m in c.members && n in c.notes && c.notes[n].action == Some(m.action)
      ensures Pinned(c, m.action, m.note)
    {
      assert n !in ids && Pinned(db, m.action, m.note);
      assert PointsHome(db, n);
      if m.note in ids { PurgedTogether(db, picked, cutoff, m.action, m.note, n); }
    }
    forall a | a in db.actions ensures ActionAdvances(db, c, a) {
    }
  }

  lemma PurgeSlots(db: Db, candidates: set<NoteId>, ids: set<NoteId>, order: seq<NoteId>, now: Time)
    requires Elements(order) == ids && ids <= db.notes.Keys && SlotInv(db) && LineageInv(db.series)
    ensures var c := PurgeTo(db, candidates, ids, order, now); SlotInv(c) && LineageInv(c.series)
  {
    hide EmptiedSeries, PurgedExceptions, PurgeEvents, LineageInv;
    var c := PurgeTo(db, candidates, ids, order, now);
    SameLinksKeepLineage(db.series, c.series);
    forall n | n in c.notes ensures Slotted(c, n) { assert Slotted(db, n); }
    forall m, n | m in c.notes && n in c.notes && SameSlot(c.notes[m], c.notes[n]) ensures m == n {
      assert SameSlot(db.notes[m], db.notes[n]);
    }
  }

  lemma PurgeErases(db: Db, picked: set<NoteId>, order: seq<NoteId>, cutoff: Time, now: Time)
    requires Elements(order) == Targets(db, picked, cutoff) && ReminderInv(db) && NoteRedaction(db)
    requires Purge(db, picked, order, cutoff, now).Some?
    ensures NoteRedaction(Purge(db, picked, order, cutoff, now).value)
  {
    hide EmptiedSeries, PurgeEvents, Candidates, Shaped, Numbered, Scheduled, Notified, RulesOwned;
    var ids := Targets(db, picked, cutoff);
    var c := Purge(db, picked, order, cutoff, now).value;
    forall n | Purged(c, n) ensures NoteErased(c.notes[n]) && SlotErased(c, c.notes[n]) {
      if n in ids { SlotVacated(db, ids, n); } else { assert Purged(db, n); }
    }
    forall t | t in c.noteTags ensures !Purged(c, t.note) {
      assert Purged(c, t.note) ==> t.note in ids || Purged(db, t.note);
    }
    forall dk | dk in c.deliveries && Purged(c, dk.rule.note) ensures DeliveryErased(c.deliveries[dk]) {
      if dk.rule.note in ids { ExpiredIsSettled(db, dk); } else { assert Purged(db, dk.rule.note); }
    }
    forall dk | dk in c.notifications && Purged(c, dk.rule.note) ensures NotificationErased(c.notifications[dk]) {
      assert dk.rule.note in ids || Purged(db, dk.rule.note);
    }
  }

  lemma SlotVacated(db: Db, ids: set<NoteId>, n: NoteId)
    requires n in ids && n in db.notes
    ensures forall k :: InSlot(db.notes[n], k) ==> Vacated(db, ids, k)
  {
  }

  lemma PurgeErasesSeries(db: Db, candidates: set<NoteId>, ids: set<NoteId>, order: seq<NoteId>, now: Time)
    requires Elements(order) == ids && ids <= db.notes.Keys && SeriesRedaction(db)
    ensures var c := PurgeTo(db, candidates, ids, order, now); SeriesRedaction(c) && SeriesAdvances(db, c)
  {
    hide PurgeEvents, Vacated;
    var c := PurgeTo(db, candidates, ids, order, now);
    var emptied := EmptiedSeries(db, c.notes, candidates);
    forall s ensures SeriesPurged(c, s) <==> (s in emptied && s in db.series) || SeriesPurged(db, s) {
    }
    forall n | n in c.notes && c.notes[n].seriesId.Some? && SeriesPurged(c, c.notes[n].seriesId.value)
      ensures c.notes[n].purgedAt.Some?
    {
      if c.notes[n].seriesId.value !in emptied {
        assert SeriesPurged(db, db.notes[n].seriesId.value);
      }
    }
  }

  lemma PurgeKeeps(db: Db, picked: set<NoteId>, order: seq<NoteId>, cutoff: Time, now: Time)
    requires StoreInv(db) && picked <= ExpiredNotes(db, cutoff) && Elements(order) == Targets(db, picked, cutoff)
    requires Purge(db, picked, order, cutoff, now).Some?
    ensures Keeps(db, Purge(db, picked, order, cutoff, now).value)
  {
    hide EmptiedSeries, PurgedExceptions, PurgeEvents, Candidates, ReminderInv, SlotInv, TrashInv, LineageInv,
         NoteRedaction, SeriesRedaction, DeliveriesAdvance, RulesAdvance, NotesAdvance, SeriesAdvances, ActionsAdvance;
    var ids := Targets(db, picked, cutoff);
    PurgeReminders(db, picked, order, cutoff, now);
    PurgeTrashInv(db, picked, order, cutoff, now);
    PurgeSlots(db, Candidates(db, picked), ids, order, now);
    PurgeErases(db, picked, order, cutoff, now);
    PurgeErasesSeries(db, Candidates(db, picked), ids, order, now);
  }
}

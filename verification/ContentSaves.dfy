/** A save that changes neither the schedule nor the reminders of a note: when does it leave the
    deliveries alone? */
module ContentSaves {
  import opened Prelude
  import opened Storage
  import opened Reconciliation
  import opened Invariants
  import opened Lineage
  import opened Store
  import opened Api
  import opened Notes
  import opened NoteHandlers
  import opened TrashActions
  import opened RoundTrips

  /** Only title, body and tags differ. */
  predicate ContentOnly(db: Db, id: NoteId, f: NoteFields)
    requires id in db.notes
  {
    f.startsAt == db.notes[id].startsAt && f.active == db.notes[id].active && f.offsets == EnabledOffsets(db, id)
  }

  /** An open delivery of the note whose deadline has come. */
  predicate DueAlready(db: Db, id: NoteId, now: Time) {
    exists dk :: dk in db.deliveries && dk.rule.note == id && Open(db.deliveries[dk]) && db.deliveries[dk].dueAt <= now
  }

  lemma OneNoteKeeps(db: Db, id: NoteId)
    ensures OneNote(id, EnabledOffsets(db, id), false) == KeepOffsets(db, {id})
  {
  }

  /** A delivery that a save of its note rewrites: open and due, or current for a live reminder
      and held or withdrawn although its deadline lies ahead. */
  predicate Disturbed(db: Db, dk: DeliveryKey, now: Time)
    requires dk in db.deliveries
  {
    var d := db.deliveries[dk];
    || (Open(d) && d.dueAt <= now)
    || (Deliverable(db, dk) && (d.state.Claimed? || d.state.Cancelled?) && d.dueAt > now)
  }

  predicate AnyDisturbed(db: Db, id: NoteId, now: Time) {
    exists dk :: dk in db.deliveries && dk.rule.note == id && Disturbed(db, dk, now)
  }

  lemma RowStays(d: Delivery, n: Note, row: Note, offset: int, now: Time)
    requires Shape(d) && d.dueAt == DueAt(n.startsAt, offset) && row.startsAt == n.startsAt && Live(row) == Live(n)
    requires Open(d) ==> Live(n)
    ensures Refresh(d, row, offset, now) == d <==>
              !((Open(d) && d.dueAt <= now) || (Live(n) && (d.state.Claimed? || d.state.Cancelled?) && d.dueAt > now))
  {
  }

  /** The same rows before and after, and the same contents but for the disturbed ones. */
  lemma SavedRow(db: Db, id: NoteId, row: Note, now: Time, dk: DeliveryKey)
    requires ReminderInv(db) && id in db.notes
    requires row.startsAt == db.notes[id].startsAt && Live(row) == Live(db.notes[id])
    ensures var c := Reconcile(db.(notes := db.notes[id := row]), KeepOffsets(db, {id}), now);
            && (dk in c.deliveries <==> dk in db.deliveries)
            && (dk in db.deliveries ==>
                  (c.deliveries[dk] == db.deliveries[dk] <==> !(dk.rule.note == id && Disturbed(db, dk, now))))
  {
    hide Reconcile, EnabledOffsets, Refresh, CancelOpen, Notified, Numbered;
    var mid := db.(notes := db.notes[id := row]);
    SameKeep(db, mid, {id});
    KeptRules(mid, {id}, dk.rule);
    DeliveryRow(mid, KeepOffsets(db, {id}), now, dk);
    if dk in db.deliveries && dk.rule.note == id {
      OpenRows(db, dk);
      if dk == CurrentKey(db, dk.rule) && db.rules[dk.rule].enabled {
        RowStays(db.deliveries[dk], db.notes[id], row, dk.rule.offset, now);
      } else { ClosedStays(db.deliveries[dk], now); }
    }
  }

  /** A content-only save leaves every delivery alone exactly when it finds none of the note's
      disturbed, whatever the clocks did before. */
  lemma ContentSaveLeavesDeliveries(db: Db, id: NoteId, version: int, seriesVersion: Option<int>, f: NoteFields,
                                    now: Time)
    requires StoreInv(db)
    requires UpdateNote(db, id, version, seriesVersion, f, now).Success? && ContentOnly(db, id, f)
    ensures UpdateNote(db, id, version, seriesVersion, f, now).value.deliveries == db.deliveries
            <==> !AnyDisturbed(db, id, now)
  {
    hide Reconcile, EnabledOffsets, SlotInv, TrashInv, LineageInv, RedactionInv, ReminderInv, Strip, SetException,
         WithTags, LockSeries, Disturbed;
    var n := db.notes[id];
    LockedOnly(db, id, seriesVersion);
    var locked := LockSeries(db, n, seriesVersion).value;
    var row := n.(title := Strip(f.title), body := f.body, startsAt := f.startsAt, active := f.active,
                  version := n.version + 1);
    var e := Edit(row, Some(f.tags), f.offsets, false, None, NoteUpdated);
    var mid := db.(notes := db.notes[id := row]);
    OneNoteKeeps(db, id);
    var p := KeepOffsets(db, {id});
    SameInputs(mid, Written(locked, id, e), p, now);
    var c := Reconcile(mid, p, now);
    var after := UpdateNote(db, id, version, seriesVersion, f, now).value;
    assert after.deliveries == c.deliveries;
    forall dk: DeliveryKey
      ensures dk in c.deliveries <==> dk in db.deliveries
      ensures dk in db.deliveries ==>
                (c.deliveries[dk] == db.deliveries[dk] <==> !(dk.rule.note == id && Disturbed(db, dk, now)))
    {
      SavedRow(db, id, row, now, dk);
    }
  }

  /** With clocks that never ran backwards, the disturbed deliveries are the open ones that are
      due: pending or claimed, the save cancels them. */
  lemma ForwardClocksDisturbTheDue(db: Db, id: NoteId, clock: Time, now: Time)
    requires OnTime(db, clock) && clock <= now
    ensures AnyDisturbed(db, id, now) <==> DueAlready(db, id, now)
  {
    forall dk | dk in db.deliveries
      ensures Disturbed(db, dk, now) <==> Open(db.deliveries[dk]) && db.deliveries[dk].dueAt <= now
    {
      assert InTime(db, dk, clock);
    }
  }

  lemma LockedOnly(db: Db, id: NoteId, expected: Option<int>)
    requires Visible(db, id) && LockSeries(db, db.notes[id], expected).Success?
    ensures var locked := LockSeries(db, db.notes[id], expected).value; locked == db.(series := locked.series)
  {
  }

  // ---------- it happens ----------

  /** One active note at 600 s with a reminder ten minutes before, pending, due at 0. */
  function OneReminder(): Db {
    var k := RuleKey(1, 10);
    Db(map[1 := Note("call", "", 600 * SECOND, true, None, None, None, None, None, None, None, 1)],
       map[k := Rule(true, 1)],
       map[DeliveryKey(k, 1) := Delivery(0, Pending, None, None, None, None, None, None, None)],
       map[], map[], map[], {}, map[], {}, {}, {}, map[], [])
  }

  /** Retitling that note one second after the deadline cancels its pending reminder. */
  lemma RetitlingCancelsDueReminder()
    ensures var db := OneReminder(); var f := NoteFields("call home", "", 600 * SECOND, true, {}, {10});
            && StoreInv(db) && OnTime(db, 0) && ContentOnly(db, 1, f)
            && var r := UpdateNote(db, 1, 1, None, f, SECOND);
            r.Success? && r.value.deliveries != db.deliveries
  {
    hide Reconcile, SetException, Strip;
    var db, f := OneReminder(), NoteFields("call home", "", 600 * SECOND, true, {}, {10});
    OneReminderInOrder();
    assert Strip(f.title) != "" by { TitleStays(); }
    assert DueAlready(db, 1, SECOND) by { assert DeliveryKey(RuleKey(1, 10), 1) in db.deliveries; }
    ForwardClocksDisturbTheDue(db, 1, 0, SECOND);
    ContentSaveLeavesDeliveries(db, 1, 1, None, f, SECOND);
  }

  lemma TitleStays()
    ensures Strip("call home") == "call home"
  {
  }

  lemma OneReminderInOrder()
    ensures StoreInv(OneReminder()) && OnTime(OneReminder(), 0) && EnabledOffsets(OneReminder(), 1) == {10}
  {
    hide ReminderInv, LineageInv, OnTime, EnabledOffsets;
    RemindersInOrder();
    NoSeriesInOrder();
  }

  lemma NoSeriesInOrder()
    ensures LineageInv(OneReminder().series)
  {
    var rank: map<SeriesId, nat> := map[];
    assert Ranked(OneReminder().series, rank);
  }

  lemma RemindersInOrder()
    ensures ReminderInv(OneReminder()) && OnTime(OneReminder(), 0) && EnabledOffsets(OneReminder(), 1) == {10}
  {
    var db, k := OneReminder(), RuleKey(1, 10);
    assert k in db.rules && k.offset == 10;
  }
}

/** What saving one note leaves for its reader and its reminders. */
module SaveResults {
  import opened Prelude
  import opened Storage
  import opened Reconciliation
  import opened Invariants
  import opened Lineage
  import opened Progress
  import opened Store
  import opened Api
  import opened Notes
  import opened NoteHandlers

  /** The note, its tags and its reminders are as asked; nothing of any other note changed. */
  lemma SaveTakesEffect(db: Db, id: NoteId, e: Edit, now: Time)
    ensures var c := Save(db, id, e, now);
            && id in c.notes && c.notes[id] == e.row
            && TagsOf(c, id) == (if e.tags.Some? then e.tags.value else TagsOf(db, id))
            && EnabledOffsets(c, id) == e.offsets
            && (forall n :: n != id ==> Row(c, n) == Row(db, n) && TagsOf(c, n) == TagsOf(db, n)
                                        && EnabledOffsets(c, n) == EnabledOffsets(db, n))
            && (forall dk: DeliveryKey :: dk.rule.note != id ==>
                  (dk in c.deliveries <==> dk in db.deliveries)
                  && (dk in db.deliveries ==> c.deliveries[dk] == db.deliveries[dk]))
            && c.notifications == db.notifications
            && c.outbox == db.outbox + [Event(e.event, NoteEntity(id), e.row.version)]
  {
    hide Reconcile, SetException, WithTags, EnabledOffsets, TagsOf;
    var start, p := Written(db, id, e), OneNote(id, e.offsets, e.moved);
    var c := Save(db, id, e, now);
    forall n ensures TagsOf(c, n) == if n == id && e.tags.Some? then e.tags.value else TagsOf(db, n) {
      TagsWritten(db, c, id, e.tags, n);
    }
    RulesLocal(start, p, now);
    ReconcileLocal(start, p, now);
    forall n | n != id ensures EnabledOffsets(c, n) == EnabledOffsets(db, n) {
      SameRules(db, c, n);
    }
    OffsetsWritten(start, c, id, e.offsets, e.moved, now);
  }

  lemma TagsWritten(db: Db, c: Db, id: NoteId, tags: Option<set<TagId>>, n: NoteId)
    requires c.noteTags == WithTags(db, id, tags)
    ensures TagsOf(c, n) == if n == id && tags.Some? then tags.value else TagsOf(db, n)
  {
    forall t ensures t in TagsOf(c, n) <==> t in (if n == id && tags.Some? then tags.value else TagsOf(db, n)) {
      assert t in TagsOf(c, n) <==> NoteTag(n, t) in c.noteTags;
      assert t in TagsOf(db, n) <==> NoteTag(n, t) in db.noteTags;
    }
  }

  lemma SameRules(db: Db, c: Db, n: NoteId)
    requires forall k: RuleKey :: k.note == n ==>
               (k in c.rules <==> k in db.rules) && (k in db.rules ==> c.rules[k] == db.rules[k])
    ensures EnabledOffsets(c, n) == EnabledOffsets(db, n)
  {
  }

  lemma OffsetsWritten(start: Db, c: Db, id: NoteId, offsets: set<int>, moved: bool, now: Time)
    requires id in start.notes && c.rules == Reconcile(start, OneNote(id, offsets, moved), now).rules
    ensures EnabledOffsets(c, id) == offsets
  {
    hide Reconcile;
    forall o ensures o in EnabledOffsets(c, id) <==> o in offsets {
      var k := RuleKey(id, o);
      RuleRow(start, OneNote(id, offsets, moved), now, k);
      assert o in EnabledOffsets(c, id) <==> k in c.rules && c.rules[k].enabled;
    }
  }

  /** The current delivery of a reminder that was asked for. */
  function CurrentDelivery(db: Db, id: NoteId, offset: int): Option<Delivery> {
    var k := RuleKey(id, offset);
    if k in db.rules && CurrentKey(db, k) in db.deliveries then Some(db.deliveries[CurrentKey(db, k)]) else None
  }

  /** A reminder that lies ahead of a live note is pending after the save, under the new
      schedule, unless the unchanged schedule has already been acted on; a note that is not live
      has nothing left to send. */
  lemma SaveArmsReminders(db: Db, id: NoteId, e: Edit, now: Time, offset: int)
    requires StoreInv(db) && Editable(db, id, e) && offset in e.offsets
    ensures var c := Save(db, id, e, now); var d := CurrentDelivery(c, id, offset);
            && d.Some? && d.value.dueAt == DueAt(e.row.startsAt, offset)
            && (!Live(e.row) ==> !Open(d.value))
            && (Live(e.row) && d.value.dueAt > now ==>
                  d.value.state.Pending?
                  || (!e.moved && d == CurrentDelivery(db, id, offset) && !Open(d.value) && !d.value.state.Cancelled?))
            && (Live(e.row) && d.value.dueAt <= now ==> !Open(d.value))
  {
    hide Reconcile, SetException, WithTags, SlotInv, TrashInv, LineageInv, RedactionInv, Advances, Refresh, NewDelivery,
         CancelOpen, ReminderInv, Editable;
    var start, p, k := Written(db, id, e), OneNote(id, e.offsets, e.moved), RuleKey(id, offset);
    var c := Save(db, id, e, now);
    StoreNumbered(db);
    SaveKeeps(db, id, e, now);
    RuleRow(start, p, now, k);
    var dk := CurrentKey(c, k);
    DeliveryRow(start, p, now, dk);
    CurrentIsScheduled(c, k);
    ArmedRow(if dk in db.deliveries then db.deliveries[dk] else NewDelivery(e.row, offset, now), e.row, offset, now);
  }

  lemma CurrentIsScheduled(c: Db, k: RuleKey)
    requires ReminderInv(c) && k in c.rules && c.rules[k].enabled
    ensures CurrentKey(c, k) in c.deliveries && k.note in c.notes
    ensures c.deliveries[CurrentKey(c, k)].dueAt == DueAt(c.notes[k.note].startsAt, k.offset)
  {
  }

  lemma ArmedRow(d: Delivery, n: Note, offset: int, now: Time)
    ensures var r := Refresh(d, n, offset, now); var due := DueAt(n.startsAt, offset);
            && (!Live(n) || due <= now ==> !Open(r))
            && (Live(n) && due > now ==> r.state.Pending? || (r == d && !Open(r) && !r.state.Cancelled?))
    ensures var r := NewDelivery(n, offset, now); var due := DueAt(n.startsAt, offset);
            && (!Live(n) || due <= now ==> !Open(r)) && (Live(n) && due > now ==> r.state.Pending?)
  {
  }
}

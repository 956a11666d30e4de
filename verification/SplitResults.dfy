/** What a committed split leaves, occurrence by occurrence, and which recurrence keys a
    lineage may repeat. */
module SplitResults {
  import opened Prelude
  import opened Storage
  import opened Reconciliation
  import opened Progress
  import opened Invariants
  import opened Lineage
  import opened Store
  import opened Api
  import opened SeriesCreation
  import opened Split

  // ---------- before the boundary ----------

  /** Notes, rules, deliveries and tags of everything that is not an unpurged occurrence of the
      old series at or after the key are untouched, and so are the exceptions below the key. */
  lemma BelowUntouched(db: Db, e: Settings, c: Cut, slots: map<NoteId, Time>, n: NoteId)
    requires Acceptable(db, e, c, slots) && n in db.notes
    requires n !in Affected(db, c.s, c.key) || db.notes[n].purgedAt.Some?
    ensures var after := AfterSplit(db, e, c, slots);
            && n in after.notes && after.notes[n] == db.notes[n]
            && (forall k: RuleKey :: k.note == n ==>
                  (k in after.rules <==> k in db.rules) && (k in db.rules ==> after.rules[k] == db.rules[k]))
            && (forall dk: DeliveryKey :: dk.rule.note == n ==>
                  (dk in after.deliveries <==> dk in db.deliveries)
                  && (dk in db.deliveries ==> after.deliveries[dk] == db.deliveries[dk]))
            && (forall t: NoteTag :: t.note == n ==> (t in after.noteTags <==> t in db.noteTags))
  {
    hide Reconcile, CutBatch, CutRow, TagsFor, Collides, Strip, ExceptionsLeft, AtKey, Vacant;
    CutRows(db, c, slots);
    var b := CutBatch(db, c, slots);
    var base := WithSuccessor(db, e, c).(notes := db.notes + b.rows);
    assert n !in b.rows;
    RulesLocal(base, b.plan, c.now);
    ReconcileLocal(base, b.plan, c.now);
  }

  lemma EarlierExceptionsUntouched(db: Db, e: Settings, c: Cut, slots: map<NoteId, Time>, k: SlotKey)
    requires Acceptable(db, e, c, slots)
    ensures var after := AfterSplit(db, e, c, slots);
            && (k in after.exceptions ==> k in db.exceptions && after.exceptions[k] == db.exceptions[k])
            && (k in db.exceptions && k !in after.exceptions ==> k.series == c.s && k.key >= c.key)
  {
    hide Reconcile, CutBatch, TagsFor, Strip;
  }

  // ---------- at and after the boundary ----------

  /** The occurrence went over to the successor: same note, same key, back to the template. */
  predicate CarriedRow(n: Note, n': Note, c: Cut) {
    && n'.seriesId == Some(c.successor) && n'.recurrenceKey == n.recurrenceKey && n'.recurrenceKey.Some?
    && n'.startsAt == n'.recurrenceKey.value && n'.startsAt > c.now
    && n'.title == Strip(c.fields.title) && n'.body == c.fields.body && n'.active == c.fields.active
    && n'.deletedAt.None? && n'.supersededAt.None? && n'.purgedAt.None? && n'.action == n.action
  }

  /** The occurrence was replaced: superseded where it was. */
  predicate ReplacedRow(n: Note, n': Note, c: Cut) {
    n' == n.(deletedAt := Some(c.now), supersededAt := Some(c.now), version := n.version + 1) && n.purgedAt.None?
  }

  predicate TombstoneRow(n: Note, n': Note) {
    n' == n && n.purgedAt.Some?
  }

  ghost predicate NoOpenDelivery(db: Db, n: NoteId) {
    forall dk :: dk in db.deliveries && dk.rule.note == n ==> !Open(db.deliveries[dk])
  }

  /** Each occurrence at or after the key is exactly one of the three: carried over (its key is
      an instant of the successor), superseded with nothing left to send, or a purged tombstone
      that stays as it was. */
  lemma ExactlyOneFate(db: Db, e: Settings, c: Cut, slots: map<NoteId, Time>, n: NoteId)
    requires StoreInv(db) && Acceptable(db, e, c, slots) && n in Affected(db, c.s, c.key)
    ensures var after := AfterSplit(db, e, c, slots);
            && n in db.notes && n in after.notes && db.notes[n].recurrenceKey.Some?
            && (TombstoneRow(db.notes[n], after.notes[n]) <==> db.notes[n].purgedAt.Some?)
            && (CarriedRow(db.notes[n], after.notes[n], c)
                <==> db.notes[n].purgedAt.None? && db.notes[n].recurrenceKey.value in c.instants)
            && (ReplacedRow(db.notes[n], after.notes[n], c)
                <==> db.notes[n].purgedAt.None? && db.notes[n].recurrenceKey.value !in c.instants)
            && (ReplacedRow(db.notes[n], after.notes[n], c) ==> NoOpenDelivery(after, n))
  {
    hide Reconcile, CutBatch, ReminderInv, TrashInv, RedactionInv, LineageInv, SlotInv, Collides, ExceptionsLeft,
         TagsAfter, Advances, Strip;
    CutRows(db, c, slots);
    SplitKeeps(db, e, c, slots);
    var after := AfterSplit(db, e, c, slots);
    assert db.notes[n].seriesId != Some(c.successor);
    if n in Superseded(db, c) { DeadNotesOweNothing(after, n); }
  }

  lemma DeadNotesOweNothing(db: Db, n: NoteId)
    requires ReminderInv(db) && n in db.notes && !Live(db.notes[n])
    ensures NoOpenDelivery(db, n)
  {
  }

  lemma SuccessorNote(db: Db, e: Settings, c: Cut, slots: map<NoteId, Time>, n: NoteId)
    requires SlotInv(db) && Acceptable(db, e, c, slots)
    requires var after := AfterSplit(db, e, c, slots); n in after.notes && after.notes[n].seriesId == Some(c.successor)
    ensures var after := AfterSplit(db, e, c, slots);
            && after.notes[n].recurrenceKey.Some? && after.notes[n].recurrenceKey.value in c.instants
            && IsOccurrence(after, c.successor, n, after.notes[n].recurrenceKey.value)
  {
    hide Reconcile, CutBatch, Collides, ExceptionsLeft, TagsAfter, Strip, AtKey, ClosedRow, SeriesRow;
    CutRows(db, c, slots);
    if n in db.notes { assert Slotted(db, n); }
  }

  lemma InstantFilled(db: Db, e: Settings, c: Cut, slots: map<NoteId, Time>, t: Time)
    requires SlotInv(db) && Acceptable(db, e, c, slots) && t in c.instants
    ensures exists n :: IsOccurrence(AfterSplit(db, e, c, slots), c.successor, n, t)
  {
    hide Reconcile, CutBatch, Collides, ExceptionsLeft, TagsAfter, Strip, AtKey, ClosedRow, SeriesRow;
    CutRows(db, c, slots);
    var n := SourceOf(db, e, c, slots, t);
    assert IsOccurrence(AfterSplit(db, e, c, slots), c.successor, n, t);
  }

  /** The successor's notes and the generated instants are in bijection: every note of the
      successor is a live occurrence at one of them, in the future, and each has exactly one. */
  lemma SuccessorIsGenerated(db: Db, e: Settings, c: Cut, slots: map<NoteId, Time>)
    requires StoreInv(db) && Acceptable(db, e, c, slots)
    ensures var after := AfterSplit(db, e, c, slots);
            && (forall n :: n in after.notes && after.notes[n].seriesId == Some(c.successor) ==>
                  after.notes[n].recurrenceKey.Some? && after.notes[n].recurrenceKey.value in c.instants
                  && after.notes[n].recurrenceKey.value > c.now
                  && IsOccurrence(after, c.successor, n, after.notes[n].recurrenceKey.value))
            && (forall t :: t in c.instants ==> exists n :: IsOccurrence(after, c.successor, n, t))
            && (forall m, n, t :: IsOccurrence(after, c.successor, m, t) && IsOccurrence(after, c.successor, n, t) ==>
                      m == n)
  {
    hide AfterSplit, ReminderInv, TrashInv, RedactionInv, LineageInv, Collides, Advances, AtKey, Fills;
    SplitKeeps(db, e, c, slots);
    var after := AfterSplit(db, e, c, slots);
    forall n | n in after.notes && after.notes[n].seriesId == Some(c.successor)
      ensures after.notes[n].recurrenceKey.Some? && after.notes[n].recurrenceKey.value in c.instants
      ensures IsOccurrence(after, c.successor, n, after.notes[n].recurrenceKey.value)
    {
      SuccessorNote(db, e, c, slots, n);
    }
    forall t | t in c.instants ensures exists n :: IsOccurrence(after, c.successor, n, t) {
      InstantFilled(db, e, c, slots, t);
    }
    forall m, n, t | IsOccurrence(after, c.successor, m, t) && IsOccurrence(after, c.successor, n, t) ensures m == n {
      assert SameSlot(after.notes[m], after.notes[n]);
    }
  }

  /** The note that fills an instant: carried over, or new. */
  lemma SourceOf(db: Db, e: Settings, c: Cut, slots: map<NoteId, Time>, t: Time) returns (n: NoteId)
    requires Acceptable(db, e, c, slots) && t in c.instants
    ensures n in Kept(db, c) + slots.Keys
    ensures if n in Kept(db, c) then n in db.notes && db.notes[n].recurrenceKey == Some(t)
            else n in slots && slots[n] == t
  {
    hide Collides, AtKey;
    if t in Vacant(db, c) {
      assert Filled(slots, t);
      n :| n in slots && slots[n] == t;
      AffectedIn(db, c.s, c.key);
      assert n !in db.notes;
    } else {
      n :| n in Kept(db, c) && db.notes[n].recurrenceKey.value == t;
    }
  }

  /** An occurrence carried over keeps the cycle number of every enabled offset the successor
      keeps, unless its start moves back to its key: then, and only then, a new cycle begins. */
  lemma CyclesCarryOver(db: Db, e: Settings, c: Cut, slots: map<NoteId, Time>, k: RuleKey)
    requires Acceptable(db, e, c, slots) && k in db.rules && db.rules[k].enabled
    requires k.note in Kept(db, c) && k.offset in c.fields.offsets
    ensures var after := AfterSplit(db, e, c, slots);
            && k in after.rules && after.rules[k].enabled
            && after.rules[k].cycle == db.rules[k].cycle
                 + if db.notes[k.note].recurrenceKey != Some(db.notes[k.note].startsAt) then 1 else 0
  {
    hide Reconcile, CutBatch, CutRow, Collides, Strip, TagsAfter, ExceptionsLeft, EnabledOffsets, AtKey, Vacant, Fills;
    CutRows(db, c, slots);
    var b := CutBatch(db, c, slots);
    RuleRow(WithSuccessor(db, e, c).(notes := db.notes + b.rows), b.plan, c.now, k);
  }

  // ---------- recurrence keys along a lineage ----------

  /** An occurrence that still stands, in some series of the lineage. */
  predicate Stands(db: Db, n: NoteId, lineage: SeriesId) {
    Visible(db, n) && SameLineage(db, db.notes[n], lineage) && db.notes[n].recurrenceKey.Some?
  }

  ghost predicate KeysUnique(db: Db, lineage: SeriesId) {
    forall m, n | Stands(db, m, lineage) && Stands(db, n, lineage)
                  && db.notes[m].recurrenceKey == db.notes[n].recurrenceKey :: m == n
  }

  /** A new instant is the key of an occurrence that stands at or after the selected one in an
      earlier segment: the handler's collision query does not look there. */
  ghost predicate ClashesAhead(db: Db, c: Cut)
    requires c.s in db.series
  {
    exists n :: Stands(db, n, db.series[c.s].lineage) && db.notes[n].seriesId != Some(c.s)
                && db.notes[n].recurrenceKey.value >= c.key && db.notes[n].recurrenceKey.value in c.instants
  }

  /** What stands after the split: what stood outside the replaced part, and the successor. */
  lemma StandsAfter(db: Db, e: Settings, c: Cut, slots: map<NoteId, Time>, n: NoteId, l: SeriesId)
    requires StoreInv(db) && Acceptable(db, e, c, slots) && l == db.series[c.s].lineage
    ensures var after := AfterSplit(db, e, c, slots);
            Stands(after, n, l) <==>
              || (n in after.notes && after.notes[n].seriesId == Some(c.successor))
              || (n in db.notes && after.notes[n] == db.notes[n] && Stands(db, n, l)
                  && (db.notes[n].seriesId == Some(c.s) ==> db.notes[n].recurrenceKey.value < c.key))
  {
    hide Reconcile, CutBatch, ReminderInv, TrashInv, RedactionInv, Collides, ExceptionsLeft, TagsAfter,
         Advances, Strip, AtKey, EnabledOffsets, Vacant, ClosedRow, SeriesRow, SameLineage;
    CutRows(db, c, slots);
    if n in db.notes { assert Slotted(db, n); }
    SeriesAfter(db, e, c, slots, l);
  }

  lemma SeriesAfter(db: Db, e: Settings, c: Cut, slots: map<NoteId, Time>, l: SeriesId)
    requires Acceptable(db, e, c, slots) && l == db.series[c.s].lineage
    ensures var after := AfterSplit(db, e, c, slots);
            forall n: Note :: SameLineage(after, n, l) <==> SameLineage(db, n, l) || n.seriesId == Some(c.successor)
  {
    hide Reconcile, CutBatch, Collides, ExceptionsLeft, TagsAfter, Strip, AtKey, EnabledOffsets, Vacant, Affected,
         Fills;
  }

  /** The keys that stand in a lineage stay unique under a split exactly when no new instant
      is the key of an occurrence that stands at or after the boundary in an earlier segment. */
  lemma KeysStayUnique(db: Db, e: Settings, c: Cut, slots: map<NoteId, Time>)
    requires StoreInv(db) && Acceptable(db, e, c, slots) && KeysUnique(db, db.series[c.s].lineage)
    ensures KeysUnique(AfterSplit(db, e, c, slots), db.series[c.s].lineage) <==> !ClashesAhead(db, c)
  {
    hide StoreInv, AfterSplit, Fills, Affected, Vacant, AtKey, Collides;
    var l, after := db.series[c.s].lineage, AfterSplit(db, e, c, slots);
    if ClashesAhead(db, c) { ClashRepeatsKey(db, e, c, slots); }
    else {
      forall m, n | Stands(after, m, l) && Stands(after, n, l)
          && after.notes[m].recurrenceKey == after.notes[n].recurrenceKey
        ensures m == n
      {
        NoNewRepeat(db, e, c, slots, m, n);
      }
    }
  }

  lemma ClashRepeatsKey(db: Db, e: Settings, c: Cut, slots: map<NoteId, Time>)
    requires StoreInv(db) && Acceptable(db, e, c, slots) && ClashesAhead(db, c)
    ensures !KeysUnique(AfterSplit(db, e, c, slots), db.series[c.s].lineage)
  {
    hide StoreInv, AfterSplit, Fills, Collides, Affected;
    var l, after := db.series[c.s].lineage, AfterSplit(db, e, c, slots);
    var n :| Stands(db, n, l) && db.notes[n].seriesId != Some(c.s)
             && db.notes[n].recurrenceKey.value >= c.key && db.notes[n].recurrenceKey.value in c.instants;
    var t := db.notes[n].recurrenceKey.value;
    SuccessorIsGenerated(db, e, c, slots);
    var m :| IsOccurrence(after, c.successor, m, t);
    OthersStay(db, e, c, slots, n);
    StandsAfter(db, e, c, slots, n, l);
    StandsAfter(db, e, c, slots, m, l);
    assert m != n;
  }

  lemma OthersStay(db: Db, e: Settings, c: Cut, slots: map<NoteId, Time>, n: NoteId)
    requires StoreInv(db) && Acceptable(db, e, c, slots) && n in db.notes && db.notes[n].seriesId != Some(c.s)
    ensures var after := AfterSplit(db, e, c, slots); n in after.notes && after.notes[n] == db.notes[n]
    ensures db.notes[n].seriesId != Some(c.successor)
  {
    hide Reconcile, CutBatch, CutRow, ReminderInv, TrashInv, RedactionInv, Collides, ExceptionsLeft, TagsAfter, Strip,
         AtKey;
    CutRows(db, c, slots);
    assert Slotted(db, n);
  }

  lemma NoNewRepeat(db: Db, e: Settings, c: Cut, slots: map<NoteId, Time>, m: NoteId, n: NoteId)
    requires StoreInv(db) && Acceptable(db, e, c, slots) && KeysUnique(db, db.series[c.s].lineage)
            && !ClashesAhead(db, c)
    requires var after := AfterSplit(db, e, c, slots); var l := db.series[c.s].lineage;
             Stands(after, m, l) && Stands(after, n, l) && after.notes[m].recurrenceKey == after.notes[n].recurrenceKey
    ensures m == n
  {
    hide StoreInv, AfterSplit, Fills, Affected, Vacant, AtKey;
    var l, after := db.series[c.s].lineage, AfterSplit(db, e, c, slots);
    SuccessorIsGenerated(db, e, c, slots);
    StandsAfter(db, e, c, slots, m, l);
    StandsAfter(db, e, c, slots, n, l);
    if after.notes[m].seriesId == Some(c.successor) && after.notes[n].seriesId == Some(c.successor) {
      assert IsOccurrence(after, c.successor, m, after.notes[m].recurrenceKey.value);
    } else if after.notes[m].seriesId == Some(c.successor) {
      OldAndNew(db, c, n, after.notes[m].recurrenceKey.value, l, slots, e);
    } else if after.notes[n].seriesId == Some(c.successor) {
      OldAndNew(db, c, m, after.notes[n].recurrenceKey.value, l, slots, e);
    }
  }

  /** An occurrence that stays cannot have a new instant as its key. */
  lemma OldAndNew(db: Db, c: Cut, n: NoteId, t: Time, l: SeriesId, slots: map<NoteId, Time>, e: Settings)
    requires Acceptable(db, e, c, slots) && !ClashesAhead(db, c) && l == db.series[c.s].lineage && Stands(db, n, l)
    requires db.notes[n].seriesId == Some(c.s) ==> db.notes[n].recurrenceKey.value < c.key
    requires t in c.instants
    ensures db.notes[n].recurrenceKey != Some(t)
  {
  }
}

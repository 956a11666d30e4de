/** What an accepted request to create or to split a series means, in terms of the request and the
    store after it. */
module SeriesRequests {
  import opened Prelude
  import opened Storage
  import opened Calendar
  import opened Recurrence
  import opened Reconciliation
  import opened Invariants
  import opened Lineage
  import opened Store
  import opened Api
  import opened Batches
  import opened SeriesCreation
  import opened Split
  import opened SplitResults

  // ---------- the instants ----------

  /** The recurrence is accepted: the zone is known, the end is not before the start, the calendar
      suffices, and there is at least one occurrence and no more than allowed, the first of them
      at the announced start. */
  predicate Recurring(e: Settings, f: SeriesFields)
    requires WellTyped(f)
  {
    && f.timezone in e.zones && !Before(f.endDate, f.localStart.date)
    && !RunsOut(f.frequency, f.localStart, f.endDate, f.localStart.date)
    && var all := Expand(e.zones[f.timezone], f.frequency, f.localStart, f.endDate, f.localStart.date);
       0 < |all| <= e.maxOccurrences && |all| <= 10_000 && all[0].instant == f.startsAt
  }

  /** A day on which the series occurs, and the earliest instant of its local time. */
  ghost predicate OccursAt(z: Zone, f: SeriesFields, t: Time)
    requires WellTyped(f)
  {
    exists d: Date :: Occurs(z, f.frequency, f.localStart, f.endDate, d)
                      && IsLeast(t, Readings(z, WallOf(DateTime(d, f.localStart.time))))
  }

  lemma GeneratedMeans(e: Settings, f: SeriesFields)
    requires WellTyped(f)
    ensures Generated(e, f).Some? <==> Recurring(e, f)
    ensures Generated(e, f).Some? ==> f.timezone in e.zones
    ensures Generated(e, f).Some? ==>
              forall t :: t in Generated(e, f).value <==> OccursAt(e.zones[f.timezone], f, t)
  {
    hide Expand, RunsOut, Readings, Occurs, Ordinal;
    if Generated(e, f).Some? {
      var z := e.zones[f.timezone];
      var r := Expand(z, f.frequency, f.localStart, f.endDate, f.localStart.date);
      ExpandExact(z, f.frequency, f.localStart, f.endDate);
      assert Generated(e, f).value == Instants(r);
      forall t ensures t in Instants(r) <==> OccursAt(z, f, t) { InstantMeans(z, f, r, t); }
    }
  }

  lemma InstantMeans(z: Zone, f: SeriesFields, r: seq<Occurrence>, t: Time)
    requires WellTyped(f) && Exact(z, f.frequency, f.localStart, f.endDate, f.localStart.date, r)
    ensures t in Instants(r) <==> OccursAt(z, f, t)
  {
    hide Readings, Ordinal;
    if t in Instants(r) {
      var i :| 0 <= i < |r| && Instants(r)[i] == t;
      assert r[i] in r;
      assert Occurs(z, f.frequency, f.localStart, f.endDate, r[i].local.date);
    }
    if OccursAt(z, f, t) {
      var d: Date :| Occurs(z, f.frequency, f.localStart, f.endDate, d)
                     && IsLeast(t, Readings(z, WallOf(DateTime(d, f.localStart.time))));
      var o := OccurrenceOn(z, f.localStart, d);
      assert Entry(z, f.frequency, f.localStart, f.endDate, f.localStart.date, o);
      var i :| 0 <= i < |r| && r[i] == o;
      assert Instants(r)[i] == t;
    }
  }

  // ---------- rows that a template stands behind ----------

  /** The series as the request describes it. */
  predicate SeriesAsAsked(row: Series, f: SeriesFields, lineage: SeriesId, predecessor: Option<SeriesId>)
    requires WellTyped(f)
  {
    && row.lineage == lineage && row.predecessor == predecessor && row.splitBoundary.None? && row.purgedAt.None?
    && row.localStart == Ordinal(f.localStart.date) * DAY + f.localStart.time && row.timezone == f.timezone
    && row.frequency == f.frequency && row.endDate == Ordinal(f.endDate)
    && row.title == Strip(f.title) && row.body == f.body && row.active == f.active && row.version == 1
  }

  /** Its tags and reminders for new occurrences, and no other series' changed. */
  ghost predicate TemplateAsAsked(db: Db, after: Db, s: SeriesId, f: SeriesFields) {
    && (forall t: SeriesTag :: t in after.seriesTags <==> t in db.seriesTags || (t.series == s && t.tag in f.tags))
    && (forall t: Template :: t in after.templates <==> t in db.templates || (t.series == s && t.offset in f.offsets))
  }

  /** A new occurrence, as the request describes it. */
  predicate OccurrenceAsAsked(n: Note, f: SeriesFields, s: SeriesId, t: Time) {
    && n.title == Strip(f.title) && n.body == f.body && n.active == f.active
    && n.startsAt == t && n.recurrenceKey == Some(t) && n.seriesId == Some(s)
    && n.deletedAt.None? && n.supersededAt.None? && n.purgedAt.None? && n.seriesTrashedAt.None? && n.action.None?
    && n.version == 1
  }

  /** The reminders of a new occurrence: one enabled rule for each offset asked for and no other,
      on its first cycle. */
  ghost predicate RemindersAsAsked(after: Db, n: NoteId, f: SeriesFields, now: Time)
    requires n in after.notes
  {
    && (forall k: RuleKey :: k.note == n ==> (k in after.rules <==> k.offset in f.offsets))
    && (forall k: RuleKey :: k in after.rules && k.note == n ==> after.rules[k] == Rule(true, 1))
    && (forall k: RuleKey :: k in after.rules && k.note == n ==>
          DeliveryKey(k, 1) in after.deliveries
          && BeginsAs(after.deliveries[DeliveryKey(k, 1)], after.notes[n], k.offset, now))
  }

  // ---------- creating a series ----------

  lemma CreateAccepted(db: Db, e: Settings, f: SeriesFields)
    requires WellTyped(f)
    ensures SeriesError(db, e, f).None? <==> f.tags <= db.tags.Keys && Recurring(e, f) && Strip(f.title) != ""
  {
    hide Generated, Recurring, Strip;
    GeneratedMeans(e, f);
  }

  lemma CreateMeans(db: Db, s: SeriesId, f: SeriesFields, slots: map<NoteId, Time>, now: Time, instants: set<Time>)
    requires WellTyped(f) && StoreInv(db) && s !in db.series && Fills(db, slots, instants)
    ensures var c := CreatedSeries(db, s, f, slots, now);
            && c.series.Keys == db.series.Keys + {s} && SeriesAsAsked(c.series[s], f, s, None)
            && (forall x :: x in db.series ==> c.series[x] == db.series[x])
            && TemplateAsAsked(db, c, s, f)
            && c.notes.Keys == db.notes.Keys + slots.Keys
            && (forall n :: n in db.notes ==> c.notes[n] == db.notes[n])
            && (forall n :: n in slots ==> OccurrenceAsAsked(c.notes[n], f, s, slots[n]))
            && (forall n :: n in slots ==> RemindersAsAsked(c, n, f, now))
            && (forall t: NoteTag :: t in c.noteTags <==> t in db.noteTags || (t.note in slots && t.tag in f.tags))
            && c.outbox == db.outbox + [Event(SeriesUpdated, SeriesEntity(s), 1)]
  {
    hide Strip, RemindersAsAsked, CreatedSeries, SeriesAsAsked, OccurrenceAsAsked, StoreInv, TemplateAsAsked;
    StoreNumbered(db);
    CreatedTables(db, s, f, slots, now);
    CreatedRows(db, s, f, slots, now);
    forall n | n in slots ensures RemindersAsAsked(CreatedSeries(db, s, f, slots, now), n, f, now) {
      NewReminders(db, s, f, slots, now, n);
    }
  }

  lemma CreatedTables(db: Db, s: SeriesId, f: SeriesFields, slots: map<NoteId, Time>, now: Time)
    requires WellTyped(f) && s !in db.series && slots.Keys !! db.notes.Keys
    ensures var c := CreatedSeries(db, s, f, slots, now);
            && c.series.Keys == db.series.Keys + {s} && SeriesAsAsked(c.series[s], f, s, None)
            && (forall x :: x in db.series ==> c.series[x] == db.series[x])
            && TemplateAsAsked(db, c, s, f)
            && (forall t: NoteTag :: t in c.noteTags <==> t in db.noteTags || (t.note in slots && t.tag in f.tags))
            && c.outbox == db.outbox + [Event(SeriesUpdated, SeriesEntity(s), 1)]
  {
    hide Reconcile, Strip, Ordinal, NewBatch, Applied;
  }

  lemma CreatedRows(db: Db, s: SeriesId, f: SeriesFields, slots: map<NoteId, Time>, now: Time)
    requires WellTyped(f) && s !in db.series && slots.Keys !! db.notes.Keys
    ensures var c := CreatedSeries(db, s, f, slots, now);
            && c.notes.Keys == db.notes.Keys + slots.Keys
            && (forall n :: n in db.notes ==> c.notes[n] == db.notes[n])
            && (forall n :: n in slots ==> OccurrenceAsAsked(c.notes[n], f, s, slots[n]))
  {
    hide Reconcile, Strip, Ordinal, WallOf, TagsFor, SeriesTagsFor, TemplatesFor;
  }

  lemma NewReminders(db: Db, s: SeriesId, f: SeriesFields, slots: map<NoteId, Time>, now: Time, n: NoteId)
    requires WellTyped(f) && RulesOwned(db) && Numbered(db) && slots.Keys !! db.notes.Keys && n in slots
    ensures RemindersAsAsked(CreatedSeries(db, s, f, slots, now), n, f, now)
  {
    hide Reconcile, Strip, Ordinal, BeginsAs, TagsFor, SeriesTagsFor, TemplatesFor;
    var b := NewBatch(f, s, slots);
    var start := db.(notes := db.notes + b.rows);
    forall k: RuleKey | k.note == n
      ensures k in CreatedSeries(db, s, f, slots, now).rules <==> k.offset in f.offsets
    {
      RuleRow(start, b.plan, now, k);
    }
    forall k: RuleKey | k.note == n && k.offset in f.offsets
      ensures var c := CreatedSeries(db, s, f, slots, now);
              && k in c.rules && c.rules[k] == Rule(true, 1) && DeliveryKey(k, 1) in c.deliveries
              && BeginsAs(c.deliveries[DeliveryKey(k, 1)], c.notes[n], k.offset, now)
    {
      RuleRow(start, b.plan, now, k);
      DeliveryRow(start, b.plan, now, DeliveryKey(k, 1));
      NewCycleBegins(start, b.plan, now, DeliveryKey(k, 1));
    }
  }

  // ---------- splitting a series ----------

  /** An occurrence of the series at or after the key that was not replaced. */
  predicate FromKey(n: Note, s: SeriesId, key: Time) {
    n.seriesId == Some(s) && n.recurrenceKey.Some? && n.recurrenceKey.value >= key && n.supersededAt.None?
  }

  /** The request that is accepted: the series is an open, unpurged end of its lineage at the
      version named; the occurrence selected is there at its version; nothing from it on is held
      in the trash or has started; the new instants lie ahead and none is the key or the start of
      an occurrence of the lineage before it; tags and title are in order. */
  ghost predicate Splittable(db: Db, e: Settings, s: SeriesId, r: SplitRequest, now: Time)
    requires WellTyped(r.fields)
  {
    && s in db.series && db.series[s].purgedAt.None? && db.series[s].splitBoundary.None?
    && (forall x :: x in db.series ==> db.series[x].predecessor != Some(s))
    && db.series[s].version == r.seriesVersion
    && (exists n :: n in db.notes && FromKey(db.notes[n], s, r.key) && Selected(db.notes[n], r.key))
    && (forall n :: n in db.notes && FromKey(db.notes[n], s, r.key) && Selected(db.notes[n], r.key) ==>
          db.notes[n].version == r.occurrenceVersion)
    && (forall n :: n in db.notes && FromKey(db.notes[n], s, r.key) ==>
          db.notes[n].action.None? && db.notes[n].seriesTrashedAt.None? && db.notes[n].startsAt > now)
    && Recurring(e, r.fields)
    && (forall t :: OccursAt(e.zones[r.fields.timezone], r.fields, t) ==> t > now)
    && (forall n :: n in db.notes && EarlierInLineage(db, db.notes[n], db.series[s].lineage, r.key) ==>
          !OccursAt(e.zones[r.fields.timezone], r.fields, db.notes[n].recurrenceKey.value)
          && !OccursAt(e.zones[r.fields.timezone], r.fields, db.notes[n].startsAt))
    && r.fields.tags <= db.tags.Keys && Strip(r.fields.title) != "" && db.series[s].timezone in e.zones
  }

  predicate Selected(n: Note, key: Time) {
    n.recurrenceKey == Some(key) && n.purgedAt.None?
  }

  predicate EarlierInLineage(db: Db, n: Note, lineage: SeriesId, key: Time) {
    && n.seriesId.Some? && n.seriesId.value in db.series && db.series[n.seriesId.value].lineage == lineage
    && n.recurrenceKey.Some? && n.recurrenceKey.value < key && n.supersededAt.None?
  }

  lemma SplitAccepted(db: Db, e: Settings, s: SeriesId, r: SplitRequest, now: Time)
    requires WellTyped(r.fields)
    ensures SplitError(db, e, s, r, now).None? <==> Splittable(db, e, s, r, now)
  {
    hide Generated, Recurring, Strip, OccursAt, FromKey, Selected, Affected, AtKey, Collides, EarlierInLineage;
    GeneratedMeans(e, r.fields);
    Sets(db, s, r.key);
    if Generated(e, r.fields).Some? && s in db.series {
      var q := Generated(e, r.fields).value;
      AheadMeans(e.zones[r.fields.timezone], r.fields, q, now);
      ClashMeans(db, e.zones[r.fields.timezone], r.fields, q, db.series[s].lineage, r.key);
    }
  }

  lemma AheadMeans(z: Zone, f: SeriesFields, q: seq<Time>, now: Time)
    requires WellTyped(f) && forall t :: t in q <==> OccursAt(z, f, t)
    ensures (exists t :: t in Elements(q) && t <= now) <==> !(forall t :: OccursAt(z, f, t) ==> t > now)
  {
    hide OccursAt;
    if t :| t in Elements(q) && t <= now { assert OccursAt(z, f, t); }
    if !(forall t :: OccursAt(z, f, t) ==> t > now) {
      var t :| OccursAt(z, f, t) && t <= now;
      assert t in Elements(q);
    }
  }

  lemma ClashMeans(db: Db, z: Zone, f: SeriesFields, q: seq<Time>, lineage: SeriesId, key: Time)
    requires WellTyped(f) && forall t :: t in q <==> OccursAt(z, f, t)
    ensures (exists n :: n in db.notes && Collides(db, db.notes[n], lineage, key, Elements(q)))
            <==> !(forall n :: n in db.notes && EarlierInLineage(db, db.notes[n], lineage, key) ==>
                     !OccursAt(z, f, db.notes[n].recurrenceKey.value) && !OccursAt(z, f, db.notes[n].startsAt))
  {
    hide OccursAt;
    forall n | n in db.notes
      ensures Collides(db, db.notes[n], lineage, key, Elements(q)) <==>
                EarlierInLineage(db, db.notes[n], lineage, key)
                && (OccursAt(z, f, db.notes[n].recurrenceKey.value) || OccursAt(z, f, db.notes[n].startsAt))
    {
    }
  }

  lemma Sets(db: Db, s: SeriesId, key: Time)
    ensures forall n :: n in Affected(db, s, key) <==> n in db.notes && FromKey(db.notes[n], s, key)
    ensures forall n :: n in AtKey(db, s, key) <==>
              n in db.notes && FromKey(db.notes[n], s, key) && Selected(db.notes[n], key)
    ensures AtKey(db, s, key) != {} <==> exists n :: n in AtKey(db, s, key)
  {
    if AtKey(db, s, key) != {} { NonEmpty(AtKey(db, s, key)); }
  }

  /** An accepted split leaves what has already started, its rules, deliveries and tags exactly as
      they were. */
  lemma StartedIsUntouched(db: Db, e: Settings, s: SeriesId, r: SplitRequest, now: Time, successor: SeriesId,
                           slots: map<NoteId, Time>, after: Db, n: NoteId)
    requires WellTyped(r.fields) && SplitOutcome(db, e, s, r, now, successor, slots, Success(()), after)
    requires n in db.notes && db.notes[n].startsAt <= now
    ensures n in after.notes && after.notes[n] == db.notes[n]
    ensures forall k: RuleKey :: k.note == n ==>
              (k in after.rules <==> k in db.rules) && (k in db.rules ==> after.rules[k] == db.rules[k])
    ensures forall dk: DeliveryKey :: dk.rule.note == n ==>
              (dk in after.deliveries <==> dk in db.deliveries)
              && (dk in db.deliveries ==> after.deliveries[dk] == db.deliveries[dk])
    ensures forall t: NoteTag :: t.note == n ==> (t in after.noteTags <==> t in db.noteTags)
  {
    hide Splittable, SplitError, AfterSplit, Acceptable, Generated, Affected, Recurring;
    GeneratedMeans(e, r.fields);
    SplitAccepted(db, e, s, r, now);
    SplitRecurs(db, e, s, r, now);
    NotFromKey(db, e, s, r, now, n);
    Sets(db, s, r.key);
    BelowUntouched(db, e, Cut(s, successor, r.key, r.fields, Elements(Generated(e, r.fields).value), now), slots, n);
  }

  lemma SplitRecurs(db: Db, e: Settings, s: SeriesId, r: SplitRequest, now: Time)
    requires WellTyped(r.fields) && Splittable(db, e, s, r, now)
    ensures Recurring(e, r.fields)
  {
    hide Recurring, OccursAt;
  }

  lemma NotFromKey(db: Db, e: Settings, s: SeriesId, r: SplitRequest, now: Time, n: NoteId)
    requires WellTyped(r.fields) && Splittable(db, e, s, r, now) && n in db.notes && db.notes[n].startsAt <= now
    ensures !FromKey(db.notes[n], s, r.key)
  {
    hide Recurring, OccursAt;
  }

  /** The series that was split ends on the last local day before the selected occurrence. */
  predicate ClosedAsAsked(old_: Series, row: Series, zone: Zone, key: Time) {
    && (row.endDate + 1) * DAY <= LocalOf(zone, key) < (row.endDate + 2) * DAY
    && row == old_.(endDate := row.endDate, splitBoundary := Some(key), version := old_.version + 1)
  }

  lemma SplitMeans(db: Db, e: Settings, c: Cut, slots: map<NoteId, Time>)
    requires Acceptable(db, e, c, slots)
    ensures var after := AfterSplit(db, e, c, slots);
            && after.series.Keys == db.series.Keys + {c.successor}
            && SeriesAsAsked(after.series[c.successor], c.fields, db.series[c.s].lineage, Some(c.s))
            && ClosedAsAsked(db.series[c.s], after.series[c.s], e.zones[db.series[c.s].timezone], c.key)
            && (forall x :: x in db.series && x != c.s ==> after.series[x] == db.series[x])
            && TemplateAsAsked(db, after, c.successor, c.fields)
            && (forall k :: k in after.exceptions <==>
                  k in db.exceptions && (k.series == c.s && k.key >= c.key ==> HasTombstone(db, k)))
            && (forall k :: k in after.exceptions ==> after.exceptions[k] == db.exceptions[k])
            && after.outbox == db.outbox + [Event(SeriesUpdated, SeriesEntity(c.successor), 1)]
  {
    hide Reconcile, Strip, Ordinal, CutBatch, LocalOf, Collides, Fills, TagsAfter, AtKey, Affected;
    WholeDay(LocalOf(e.zones[db.series[c.s].timezone], c.key));
    forall k
      ensures k in db.exceptions && k.series == c.s && k.key >= c.key ==>
                (TombstoneKey(db, c, k.key) <==> HasTombstone(db, k))
    {
      Tombstones(db, c, k);
    }
  }

  /** A redacted occurrence that was not replaced holds the slot. */
  predicate HasTombstone(db: Db, k: SlotKey) {
    exists n :: n in db.notes && InSlot(db.notes[n], k) && db.notes[n].purgedAt.Some? && db.notes[n].supersededAt.None?
  }

  lemma Tombstones(db: Db, c: Cut, k: SlotKey)
    ensures k.series == c.s && k.key >= c.key ==> (TombstoneKey(db, c, k.key) <==> HasTombstone(db, k))
  {
  }

  lemma WholeDay(wall: int)
    ensures (wall / DAY) * DAY <= wall < (wall / DAY + 1) * DAY
  {
  }

  /** An occurrence that the successor has, carried over or new, gets the template's tags and the
      template's reminders; any other note keeps its tags. */
  lemma OccurrencesFollowTemplate(db: Db, e: Settings, c: Cut, slots: map<NoteId, Time>, n: NoteId)
    requires StoreInv(db) && Acceptable(db, e, c, slots) && n in AfterSplit(db, e, c, slots).notes
    ensures var after := AfterSplit(db, e, c, slots);
            && (after.notes[n].seriesId != Some(c.successor) ==> TagsOf(after, n) == TagsOf(db, n))
            && (after.notes[n].seriesId == Some(c.successor) ==>
                  EnabledOffsets(after, n) == c.fields.offsets
                  && TagsOf(after, n) == if n in db.notes then c.fields.tags else TagsOf(db, n) + c.fields.tags)
    ensures n in slots ==> OccurrenceAsAsked(AfterSplit(db, e, c, slots).notes[n], c.fields, c.successor, slots[n])
  {
    hide AfterSplit, StoreInv, EnabledOffsets, TagsOf, Kept, Fills, Affected, Vacant, AtKey, Collides,
         OccurrenceAsAsked;
    var after := AfterSplit(db, e, c, slots);
    SuccessorRow(db, e, c, slots, n);
    TagsAfterwards(db, c, slots, after, n);
    if n in Kept(db, c) || n in slots { OffsetsAfterwards(db, e, c, slots, n); }
  }

  lemma SuccessorRow(db: Db, e: Settings, c: Cut, slots: map<NoteId, Time>, n: NoteId)
    requires StoreInv(db) && Acceptable(db, e, c, slots) && n in AfterSplit(db, e, c, slots).notes
    ensures var after := AfterSplit(db, e, c, slots);
            && (after.notes[n].seriesId == Some(c.successor) <==> n in Kept(db, c) || n in slots)
            && (n in Kept(db, c) ==> n in db.notes) && (n in slots ==> n !in db.notes)
            && slots.Keys !! db.notes.Keys && after.noteTags == TagsAfter(db, c, slots)
    ensures n in slots ==> OccurrenceAsAsked(AfterSplit(db, e, c, slots).notes[n], c.fields, c.successor, slots[n])
  {
    hide Reconcile, CutBatch, Collides, Strip, ExceptionsLeft, AtKey, Vacant, ReminderInv, TrashInv, RedactionInv,
         LineageInv, EnabledOffsets, Affected, TagsAfter, SeriesTagsFor, TemplatesFor, ClosedRow, SeriesRow;
    CutRows(db, c, slots);
    if n in db.notes { assert Slotted(db, n); }
  }

  lemma TagsAfterwards(db: Db, c: Cut, slots: map<NoteId, Time>, after: Db, n: NoteId)
    requires after.noteTags == TagsAfter(db, c, slots)
    ensures TagsOf(after, n) == if n in Kept(db, c) then c.fields.tags
                                else if n in slots then TagsOf(db, n) + c.fields.tags else TagsOf(db, n)
  {
    hide Kept, TagsOf;
    var wanted := if n in Kept(db, c) then c.fields.tags
                  else if n in slots then TagsOf(db, n) + c.fields.tags else TagsOf(db, n);
    forall t ensures t in TagsOf(after, n) <==> t in wanted {
      InTags(after, n, t);
      InTags(db, n, t);
    }
  }

  lemma InTags(db: Db, n: NoteId, t: TagId)
    ensures t in TagsOf(db, n) <==> NoteTag(n, t) in db.noteTags
  {
    if NoteTag(n, t) in db.noteTags { var x := NoteTag(n, t); assert x in db.noteTags && x.tag == t; }
  }

  lemma OffsetsAfterwards(db: Db, e: Settings, c: Cut, slots: map<NoteId, Time>, n: NoteId)
    requires Acceptable(db, e, c, slots) && (n in Kept(db, c) || n in slots)
    ensures EnabledOffsets(AfterSplit(db, e, c, slots), n) == c.fields.offsets
  {
    hide Reconcile, CutBatch, CutRow, Collides, Strip, ExceptionsLeft, AtKey, Vacant, EnabledOffsets, Affected,
         TagsAfter, Fills, ClosedRow, SeriesRow;
    CutRows(db, c, slots);
    var b := CutBatch(db, c, slots);
    SlotsAreNew(db, e, c, slots, n);
    PlannedOffsets(WithSuccessor(db, e, c).(notes := db.notes + b.rows), b.plan, c.now, n);
    SameEnabled(AfterSplit(db, e, c, slots),
                Reconcile(WithSuccessor(db, e, c).(notes := db.notes + b.rows), b.plan, c.now), n);
  }

  lemma SlotsAreNew(db: Db, e: Settings, c: Cut, slots: map<NoteId, Time>, n: NoteId)
    requires Acceptable(db, e, c, slots) && (n in Kept(db, c) || n in slots)
    ensures n !in Superseded(db, c)
  {
    hide Collides, AtKey;
  }

  lemma SameEnabled(a: Db, b: Db, n: NoteId)
    requires a.rules == b.rules
    ensures EnabledOffsets(a, n) == EnabledOffsets(b, n)
  {
  }

  lemma PlannedOffsets(start: Db, p: Plan, now: Time, n: NoteId)
    requires p.wanted.Keys <= start.notes.Keys && n in p.wanted
    ensures EnabledOffsets(Reconcile(start, p, now), n) == p.wanted[n]
  {
    hide Reconcile;
    var c := Reconcile(start, p, now);
    forall o ensures o in EnabledOffsets(c, n) <==> o in p.wanted[n] {
      var k := RuleKey(n, o);
      RuleRow(start, p, now, k);
      assert o in EnabledOffsets(c, n) <==> k in c.rules && c.rules[k].enabled;
    }
  }
}

/** Creating a recurring series: backend/app/domain/recurrence.py, create_series_rows, and the
    handler around it. */
module SeriesCreation {
  import opened Prelude
  import opened Storage
  import opened Calendar
  import opened Recurrence
  import opened Reconciliation
  import opened Progress
  import opened Invariants
  import opened Lineage
  import opened Store
  import opened Api
  import opened Batches

  const MAX_OCCURRENCES: nat := 10_000

  datatype SeriesFields = SeriesFields(
    localStart: DateTime, timezone: string, frequency: Frequency, endDate: Date, startsAt: Time,
    title: string, body: string, active: bool, tags: set<TagId>, offsets: set<int>)

  predicate WellTyped(f: SeriesFields) {
    ValidTime(f.localStart) && Valid(f.endDate)
  }

  function Instants(r: seq<Occurrence>): seq<Time> {
    seq(|r|, i requires 0 <= i < |r| => r[i].instant)
  }

  /** The tz database, and the configured maximum number of occurrences. */
  datatype Settings = Settings(zones: map<string, Zone>, maxOccurrences: nat)

  function Limit(e: Settings): nat {
    if e.maxOccurrences < MAX_OCCURRENCES then e.maxOccurrences else MAX_OCCURRENCES
  }

  /** The instants of the new occurrences, unless the recurrence is refused. */
  function Generated(e: Settings, f: SeriesFields): Option<seq<Time>>
    requires WellTyped(f)
  {
    match Expansion(e.zones, f.timezone, f.frequency, f.localStart, f.endDate, Limit(e))
    case Failure(_) => None
    case Success(r) => if r == [] || f.startsAt != r[0].instant then None else Some(Instants(r))
  }

  /** Whatever the zone, the accepted instants differ and begin with the announced start. */
  lemma GeneratedAreDistinct(e: Settings, f: SeriesFields)
    requires WellTyped(f) && Generated(e, f).Some?
    ensures Distinct(Generated(e, f).value) && Generated(e, f).value != []
    ensures Generated(e, f).value[0] == f.startsAt
  {
    hide Expand, RunsOut;
    var q, zone := Generated(e, f).value, e.zones[f.timezone];
    forall i, j | 0 <= i < j < |q| ensures q[i] != q[j] {
      InstantsDiffer(zone, f.frequency, f.localStart, f.endDate, i, j);
    }
  }

  /** In a zone that repeats no day while the series runs, the announced start is the earliest
      instant and the others follow in order. */
  lemma GeneratedIncreases(e: Settings, f: SeriesFields)
    requires WellTyped(f) && Generated(e, f).Some? && SteadyFor(e.zones[f.timezone], f.localStart, f.endDate)
    ensures var q := Generated(e, f).value;
            (forall i, j :: 0 <= i < j < |q| ==> q[i] < q[j]) && (forall t :: t in q ==> f.startsAt <= t)
  {
    hide Expand, RunsOut, SteadyFor;
    var q, zone := Generated(e, f).value, e.zones[f.timezone];
    forall i, j | 0 <= i < j < |q| ensures q[i] < q[j] {
      InstantsIncrease(zone, f.frequency, f.localStart, f.endDate, i, j);
    }
    GeneratedAreDistinct(e, f);
  }

  function SeriesRow(f: SeriesFields, lineage: SeriesId, predecessor: Option<SeriesId>): Series
    requires WellTyped(f)
  {
    Series(lineage, predecessor, None, WallOf(f.localStart), f.timezone, f.frequency, Ordinal(f.endDate),
           Strip(f.title), f.body, f.active, None, 1)
  }

  function OccurrenceRow(f: SeriesFields, s: SeriesId, at: Time): Note {
    Note(Strip(f.title), f.body, at, f.active, None, None, None, None, Some(s), Some(at), None, 1)
  }

  /** New notes, one per instant: `slots` gives the instant of each new id. */
  ghost predicate Fills(db: Db, slots: map<NoteId, Time>, instants: set<Time>) {
    && slots.Keys !! db.notes.Keys
    && (forall n :: n in slots ==> slots[n] in instants) && (forall t :: t in instants ==> Filled(slots, t))
    && (forall m, n :: m in slots && n in slots && slots[m] == slots[n] ==> m == n)
  }

  ghost predicate Filled(slots: map<NoteId, Time>, t: Time) {
    exists n :: n in slots && slots[n] == t
  }

  function NewBatch(f: SeriesFields, s: SeriesId, slots: map<NoteId, Time>): (b: Batch)
  {
    Batch(map n | n in slots :: OccurrenceRow(f, s, slots[n]), Plan(map n | n in slots :: f.offsets, {}))
  }

  function TagsFor(ids: set<NoteId>, tags: set<TagId>): (s: set<NoteTag>)
    ensures forall t: NoteTag :: t in s <==> t.note in ids && t.tag in tags
  {
    set n, t | n in ids && t in tags :: NoteTag(n, t)
  }

  function SeriesTagsFor(s: SeriesId, tags: set<TagId>): (r: set<SeriesTag>)
    ensures forall t: SeriesTag :: t in r <==> t.series == s && t.tag in tags
  {
    set t | t in tags :: SeriesTag(s, t)
  }

  function TemplatesFor(s: SeriesId, offsets: set<int>): (r: set<Template>)
    ensures forall t: Template :: t in r <==> t.series == s && t.offset in offsets
  {
    set o | o in offsets :: Template(s, o)
  }

  /** The series `s` and its occurrences, each with every rule of the template. */
  function CreatedSeries(db: Db, s: SeriesId, f: SeriesFields, slots: map<NoteId, Time>, now: Time): Db
    requires WellTyped(f)
  {
    Applied(db, NewBatch(f, s, slots), now).(
      series := db.series[s := SeriesRow(f, s, None)],
      seriesTags := db.seriesTags + SeriesTagsFor(s, f.tags),
      templates := db.templates + TemplatesFor(s, f.offsets),
      noteTags := db.noteTags + TagsFor(slots.Keys, f.tags),
      outbox := db.outbox + [Event(SeriesUpdated, SeriesEntity(s), 1)])
  }

  function SeriesError(db: Db, e: Settings, f: SeriesFields): Option<ApiError>
    requires WellTyped(f)
  {
    if !(f.tags <= db.tags.Keys) then Some(InvalidTag)
    else if Generated(e, f).None? then Some(InvalidRecurrence)
    else if Strip(f.title) == "" then Some(ValidationError)
    else None
  }

  // ---------- the invariant ----------

  lemma CreatedCovers(db: Db, s: SeriesId, f: SeriesFields, slots: map<NoteId, Time>)
    requires slots.Keys !! db.notes.Keys
    ensures var b := NewBatch(f, s, slots); PlanCovers(db, db.notes + b.rows, b.plan)
    ensures forall n :: n in db.notes + NewBatch(f, s, slots).rows ==>
              LeavesActions(Row(db, n), (db.notes + NewBatch(f, s, slots).rows)[n])
  {
  }

  lemma CreatedSlots(db: Db, s: SeriesId, f: SeriesFields, slots: map<NoteId, Time>, now: Time, instants: set<Time>)
    requires WellTyped(f) && SlotInv(db) && LineageInv(db.series) && s !in db.series && Fills(db, slots, instants)
    ensures var c := CreatedSeries(db, s, f, slots, now); SlotInv(c) && LineageInv(c.series)
  {
    hide Reconcile, LineageInv, Strip;
    var c := CreatedSeries(db, s, f, slots, now);
    RootKeepsLineage(db.series, s, SeriesRow(f, s, None));
    forall n | n in c.notes ensures Slotted(c, n) {
      if n in db.notes { assert Slotted(db, n); }
    }
    forall m, n | m in c.notes && n in c.notes && SameSlot(c.notes[m], c.notes[n]) ensures m == n {
      if m in db.notes { assert Slotted(db, m); }
      if n in db.notes { assert Slotted(db, n); }
      assert m in db.notes && n in db.notes ==> SameSlot(db.notes[m], db.notes[n]);
    }
  }

  lemma CreatedFrozen(db: Db, s: SeriesId, f: SeriesFields, slots: map<NoteId, Time>, now: Time)
    requires WellTyped(f) && s !in db.series && slots.Keys !! db.notes.Keys
    ensures NotesFrozen(db, CreatedSeries(db, s, f, slots, now))
  {
    hide Reconcile, Strip, TagsFor, SeriesTagsFor, TemplatesFor, NotesFrozen;
    BatchIsFrozen(db, CreatedSeries(db, s, f, slots, now), NewBatch(f, s, slots), now);
  }

  lemma CreatedSeriesFrozen(db: Db, s: SeriesId, f: SeriesFields, slots: map<NoteId, Time>, now: Time)
    requires WellTyped(f) && s !in db.series && slots.Keys !! db.notes.Keys
    ensures SeriesFrozen(db, CreatedSeries(db, s, f, slots, now))
  {
    hide Reconcile, Strip, TagsFor, SeriesTagsFor, TemplatesFor, WallOf, Ordinal;
    var c := CreatedSeries(db, s, f, slots, now);
    assert forall x :: SeriesPurged(c, x) ==> x != s;
  }

  lemma CreateKeeps(db: Db, s: SeriesId, f: SeriesFields, slots: map<NoteId, Time>, now: Time, instants: set<Time>)
    requires WellTyped(f) && StoreInv(db) && s !in db.series && Fills(db, slots, instants)
    ensures Keeps(db, CreatedSeries(db, s, f, slots, now))
  {
    hide ReminderInv, SlotInv, LineageInv, RedactionInv, NotesFrozen, SeriesFrozen, Reconcile, Advances, TrashInv,
         Strip, PlanCovers, TagsFor, SeriesTagsFor, TemplatesFor;
    var b := NewBatch(f, s, slots);
    CreatedCovers(db, s, f, slots);
    CreatedSlots(db, s, f, slots, now, instants);
    CreatedFrozen(db, s, f, slots, now);
    CreatedSeriesFrozen(db, s, f, slots, now);
    EditKeeps(db, db.notes + b.rows, b.plan, now, CreatedSeries(db, s, f, slots, now));
  }

  // ---------- what a new series holds ----------

  predicate IsOccurrence(db: Db, s: SeriesId, n: NoteId, t: Time) {
    && n in db.notes && db.notes[n].seriesId == Some(s) && db.notes[n].recurrenceKey == Some(t)
    && db.notes[n].startsAt == t && db.notes[n].deletedAt.None? && Visible(db, n)
  }

  /** The notes of a new series and its generated instants are in bijection: a live occurrence at
      each instant, and no other note. */
  lemma OccurrencesAreGenerated(db: Db, s: SeriesId, f: SeriesFields, slots: map<NoteId, Time>, now: Time,
                                instants: set<Time>)
    requires WellTyped(f) && StoreInv(db) && s !in db.series && Fills(db, slots, instants)
    ensures var c := CreatedSeries(db, s, f, slots, now);
            && (forall n :: n in c.notes && c.notes[n].seriesId == Some(s) ==>
                  n in slots && slots[n] in instants && IsOccurrence(c, s, n, slots[n]))
            && (forall t :: t in instants ==> exists n :: IsOccurrence(c, s, n, t))
            && (forall m, n, t :: IsOccurrence(c, s, m, t) && IsOccurrence(c, s, n, t) ==> m == n)
  {
    hide ReminderInv, TrashInv, RedactionInv, LineageInv, Advances, CreatedSeries, IsOccurrence;
    var c := CreatedSeries(db, s, f, slots, now);
    CreateKeeps(db, s, f, slots, now, instants);
    forall n ensures n in slots ==> IsOccurrence(c, s, n, slots[n])
             ensures n in c.notes && c.notes[n].seriesId == Some(s) ==> n in slots
    {
      NewRow(db, s, f, slots, now, n);
    }
    forall t | t in instants ensures exists n :: IsOccurrence(c, s, n, t) {
      assert Filled(slots, t);
    }
    forall m, n, t | IsOccurrence(c, s, m, t) && IsOccurrence(c, s, n, t) ensures m == n {
      OneSlot(c, s, m, n, t);
    }
  }

  lemma NewRow(db: Db, s: SeriesId, f: SeriesFields, slots: map<NoteId, Time>, now: Time, n: NoteId)
    requires WellTyped(f) && SlotInv(db) && s !in db.series && slots.Keys !! db.notes.Keys
    ensures var c := CreatedSeries(db, s, f, slots, now);
            && (n in slots ==> IsOccurrence(c, s, n, slots[n]))
            && (n in c.notes && c.notes[n].seriesId == Some(s) ==> n in slots)
  {
    hide Reconcile, Strip, TagsFor, SeriesTagsFor, TemplatesFor, WallOf, Ordinal;
    NoNoteYet(db, s, n);
  }

  lemma OneSlot(db: Db, s: SeriesId, m: NoteId, n: NoteId, t: Time)
    requires SlotInv(db) && IsOccurrence(db, s, m, t) && IsOccurrence(db, s, n, t)
    ensures m == n
  {
    assert SameSlot(db.notes[m], db.notes[n]);
  }

  lemma NoNoteYet(db: Db, s: SeriesId, n: NoteId)
    requires SlotInv(db) && s !in db.series
    ensures n in db.notes ==> db.notes[n].seriesId != Some(s)
  {
    assert n in db.notes ==> Slotted(db, n);
  }

  // ---------- bulk materialization ----------

  function RuleKeys(ids: set<NoteId>, offsets: set<int>): (s: set<RuleKey>)
    ensures forall k: RuleKey :: k in s <==> k.note in ids && k.offset in offsets
  {
    set n, o | n in ids && o in offsets :: RuleKey(n, o)
  }

  function BulkRules(ids: set<NoteId>, offsets: set<int>): map<RuleKey, Rule> {
    map k | k in RuleKeys(ids, offsets) :: Rule(true, 1)
  }

  // The state the bulk insert chooses for a delivery.
  function BulkDelivery(at: Time, active: bool, offset: int, now: Time): Delivery {
    var deadline := DueAt(at, offset);
    var state := if !active then Cancelled else if deadline <= now then Missed else Pending;
    Delivery(deadline, state, None, None, None, None, None,
             if state in {Cancelled, Missed} then Some(now) else None, None)
  }

  function DeliveryKeys(ids: set<NoteId>, offsets: set<int>): (s: set<DeliveryKey>)
    ensures forall dk: DeliveryKey :: dk in s <==> dk.rule.note in ids && dk.rule.offset in offsets && dk.cycle == 1
  {
    set k | k in RuleKeys(ids, offsets) :: DeliveryKey(k, 1)
  }

  function BulkDeliveries(slots: map<NoteId, Time>, active: bool, offsets: set<int>, now: Time)
    : map<DeliveryKey, Delivery>
  {
    map dk | dk in DeliveryKeys(slots.Keys, offsets) :: BulkDelivery(slots[dk.rule.note], active, dk.rule.offset, now)
  }

  /** Inserting rules and deliveries in bulk gives the rules and deliveries that reconciling
      each new note on its own would give. */
  lemma BulkIsReconcile(db: Db, s: SeriesId, f: SeriesFields, slots: map<NoteId, Time>, now: Time)
    requires RulesOwned(db) && Numbered(db) && slots.Keys !! db.notes.Keys
    ensures var b := NewBatch(f, s, slots);
            Applied(db, b, now) == db.(notes := db.notes + b.rows,
                                       rules := db.rules + BulkRules(slots.Keys, f.offsets),
                                       deliveries := db.deliveries + BulkDeliveries(slots, f.active, f.offsets, now))
  {
    hide Reconcile, Strip, OccurrenceRow, BulkDeliveries, BulkRules;
    var b := NewBatch(f, s, slots);
    var c := Applied(db, b, now);
    var rules, deliveries := BulkRules(slots.Keys, f.offsets), BulkDeliveries(slots, f.active, f.offsets, now);
    forall k: RuleKey ensures k in c.rules <==> k in db.rules + rules
                      ensures k in c.rules ==> c.rules[k] == (db.rules + rules)[k] {
      BulkRuleRow(db, s, f, slots, now, k);
    }
    assert c.rules == db.rules + rules;
    forall dk: DeliveryKey ensures dk in c.deliveries <==> dk in db.deliveries + deliveries
                           ensures dk in c.deliveries ==> c.deliveries[dk] == (db.deliveries + deliveries)[dk] {
      BulkRow(db, s, f, slots, now, dk);
    }
    assert c.deliveries == db.deliveries + deliveries;
  }

  lemma BulkRuleRow(db: Db, s: SeriesId, f: SeriesFields, slots: map<NoteId, Time>, now: Time, k: RuleKey)
    requires RulesOwned(db) && slots.Keys !! db.notes.Keys
    ensures var c := Applied(db, NewBatch(f, s, slots), now);
            var bulk := db.rules + BulkRules(slots.Keys, f.offsets);
            && (k in c.rules <==> k in bulk) && (k in c.rules ==> c.rules[k] == bulk[k])
  {
    hide Reconcile, Strip, OccurrenceRow, RuleKeys;
    var b := NewBatch(f, s, slots);
    RuleRow(db.(notes := db.notes + b.rows), b.plan, now, k);
  }

  lemma BulkRow(db: Db, s: SeriesId, f: SeriesFields, slots: map<NoteId, Time>, now: Time, dk: DeliveryKey)
    requires RulesOwned(db) && Numbered(db) && slots.Keys !! db.notes.Keys
    ensures var c := Applied(db, NewBatch(f, s, slots), now);
            var bulk := db.deliveries + BulkDeliveries(slots, f.active, f.offsets, now);
            && (dk in c.deliveries <==> dk in bulk) && (dk in c.deliveries ==> c.deliveries[dk] == bulk[dk])
  {
    hide Reconcile, NewDelivery, BulkDelivery, OccurrenceRow, DeliveryKeys, DeliveryAfter;
    var b := NewBatch(f, s, slots);
    var start := db.(notes := db.notes + b.rows);
    DeliveryRow(start, b.plan, now, dk);
    if dk.rule.note in slots { FreshNoteRow(db, s, f, slots, now, dk); }
    else { UnplannedRow(start, b.plan, now, dk); }
  }

  lemma FreshNoteRow(db: Db, s: SeriesId, f: SeriesFields, slots: map<NoteId, Time>, now: Time, dk: DeliveryKey)
    requires RulesOwned(db) && Numbered(db) && slots.Keys !! db.notes.Keys && dk.rule.note in slots
    ensures var b := NewBatch(f, s, slots); var start := db.(notes := db.notes + b.rows);
            && dk !in db.deliveries
            && (IsNewCycle(start, b.plan, dk) <==> dk.rule.offset in f.offsets && dk.cycle == 1)
            && DeliveryAfter(start, b.plan, now, dk) == BulkDelivery(slots[dk.rule.note], f.active, dk.rule.offset, now)
  {
  }

  /** The first delivery of an occurrence: withdrawn if the series is inactive, else missed if its
      deadline has come, else pending. */
  predicate BulkBegins(d: Delivery, deadline: Time, active: bool, now: Time) {
    && d.dueAt == deadline && (d.state.Cancelled? <==> !active)
    && (d.state.Missed? <==> active && deadline <= now) && (d.state.Pending? <==> active && deadline > now)
    && d.resultAt == (if d.state.Pending? then None else Some(now))
  }

  // for offset in payload.reminder_offsets_minutes
  method MaterializeRules(id: NoteId, at: Time, active: bool, offsets: set<int>, now: Time)
    returns (rules: map<RuleKey, Rule>, deliveries: map<DeliveryKey, Delivery>)
    ensures rules == BulkRules({id}, offsets)
    ensures deliveries == BulkDeliveries(map[id := at], active, offsets, now)
    ensures forall o :: o in offsets ==>
              RuleKey(id, o) in rules && rules[RuleKey(id, o)] == Rule(true, 1)
              && DeliveryKey(RuleKey(id, o), 1) in deliveries
              && BulkBegins(deliveries[DeliveryKey(RuleKey(id, o), 1)], at - o * MINUTE, active, now)
  {
    hide BulkRules, BulkDeliveries, BulkBegins, RuleKeys, DeliveryKeys;
    rules, deliveries := map[], map[];
    NoOffsets(id, at, active, now);
    BulkRowsBegin(id, at, active, offsets, now);
    var order := Listing(offsets);
    ghost var done: set<int> := {};
    for i := 0 to |order|
      invariant done == Elements(order[..i])
      invariant rules == BulkRules({id}, done)
      invariant deliveries == BulkDeliveries(map[id := at], active, done, now)
    {
      var offset := order[i];
      assert order[..i + 1] == order[..i] + [offset];
      var k := RuleKey(id, offset);
      var deadline := DueAt(at, offset);
      var state;
      if !active { state := DeliveryState.Cancelled; }
      else if deadline <= now { state := Missed; }
      else { state := Pending; }
      OneMoreOffset(id, at, active, done, offset, now);
      rules := rules[k := Rule(true, 1)];
      deliveries := deliveries[DeliveryKey(k, 1) := Delivery(deadline, state, None, None, None, None, None,
                                 if state in {DeliveryState.Cancelled, Missed} then Some(now) else None, None)];
      done := done + {offset};
    }
    assert order[..|order|] == order;
  }

  lemma NoOffsets(id: NoteId, at: Time, active: bool, now: Time)
    ensures BulkRules({id}, {}) == map[] && BulkDeliveries(map[id := at], active, {}, now) == map[]
  {
  }

  lemma BulkRowsBegin(id: NoteId, at: Time, active: bool, offsets: set<int>, now: Time)
    ensures var rules, deliveries := BulkRules({id}, offsets), BulkDeliveries(map[id := at], active, offsets, now);
            forall o :: o in offsets ==>
              RuleKey(id, o) in rules && rules[RuleKey(id, o)] == Rule(true, 1)
              && DeliveryKey(RuleKey(id, o), 1) in deliveries
              && BulkBegins(deliveries[DeliveryKey(RuleKey(id, o), 1)], at - o * MINUTE, active, now)
  {
    hide RuleKeys, DeliveryKeys;
  }

  lemma OneMoreOffset(id: NoteId, at: Time, active: bool, done: set<int>, o: int, now: Time)
    ensures BulkRules({id}, done + {o}) == BulkRules({id}, done)[RuleKey(id, o) := Rule(true, 1)]
    ensures BulkDeliveries(map[id := at], active, done + {o}, now)
         == BulkDeliveries(map[id := at], active, done, now)
              [DeliveryKey(RuleKey(id, o), 1) := BulkDelivery(at, active, o, now)]
  {
    hide RuleKeys, DeliveryKeys, BulkDelivery;
  }

  /** Everything collected for insertion so far. */
  datatype Inserts = Inserts(notes: map<NoteId, Note>, noteTags: set<NoteTag>, rules: map<RuleKey, Rule>,
                             deliveries: map<DeliveryKey, Delivery>)

  function InsertsFor(f: SeriesFields, s: SeriesId, slots: map<NoteId, Time>, now: Time): Inserts {
    Inserts(NewBatch(f, s, slots).rows, TagsFor(slots.Keys, f.tags), BulkRules(slots.Keys, f.offsets),
            BulkDeliveries(slots, f.active, f.offsets, now))
  }

  lemma MoreRules(ids: set<NoteId>, id: NoteId, offsets: set<int>)
    ensures BulkRules(ids + {id}, offsets) == BulkRules(ids, offsets) + BulkRules({id}, offsets)
  {
  }

  lemma MoreDeliveries(slots: map<NoteId, Time>, id: NoteId, at: Time, active: bool, offsets: set<int>, now: Time)
    requires id !in slots
    ensures BulkDeliveries(slots[id := at], active, offsets, now)
         == BulkDeliveries(slots, active, offsets, now) + BulkDeliveries(map[id := at], active, offsets, now)
  {
    hide DeliveryKeys, BulkDelivery;
    var a := BulkDeliveries(slots[id := at], active, offsets, now);
    var b := BulkDeliveries(slots, active, offsets, now) + BulkDeliveries(map[id := at], active, offsets, now);
    forall dk: DeliveryKey ensures (dk in a <==> dk in b) && (dk in a ==> a[dk] == b[dk]) {
    }
    assert a == b;
  }

  lemma MoreNotes(f: SeriesFields, s: SeriesId, slots: map<NoteId, Time>, id: NoteId, at: Time)
    requires id !in slots
    ensures NewBatch(f, s, slots[id := at]).rows == NewBatch(f, s, slots).rows[id := OccurrenceRow(f, s, at)]
    ensures TagsFor((slots[id := at]).Keys, f.tags) == TagsFor(slots.Keys, f.tags) + TagsFor({id}, f.tags)
    ensures (slots[id := at]).Keys == slots.Keys + {id}
  {
  }

  // One turn of `for occurrence in occurrences`.
  method AddOccurrence(id: NoteId, at: Time, was: Inserts, s: SeriesId, f: SeriesFields, now: Time,
                       ghost slots: map<NoteId, Time>)
    returns (more: Inserts)
    requires id !in slots && was == InsertsFor(f, s, slots, now)
    ensures more == InsertsFor(f, s, slots[id := at], now)
  {
    hide BulkRules, BulkDeliveries, NewBatch, OccurrenceRow, TagsFor;
    MoreRules(slots.Keys, id, f.offsets);
    MoreDeliveries(slots, id, at, f.active, f.offsets, now);
    MoreNotes(f, s, slots, id, at);
    var rules, deliveries := MaterializeRules(id, at, f.active, f.offsets, now);
    more := Inserts(was.notes[id := OccurrenceRow(f, s, at)], was.noteTags + TagsFor({id}, f.tags),
                    was.rules + rules, was.deliveries + deliveries);
  }

  /** No row of the store carries an id that uuid4() has still to draw. */
  ghost predicate FreshFrom(db: Db, next: int) {
    forall id :: id >= next ==> id !in db.notes && id !in db.series && id !in db.actions
  }

  ghost predicate Numbering(slots: map<NoteId, Time>, q: seq<Time>, first: int) {
    && |slots| == |q|
    && (forall n :: n in slots <==> first <= n < first + |q|)
    && (forall n :: n in slots ==> slots[n] == q[n - first])
  }

  lemma NumberingFills(db: Db, slots: map<NoteId, Time>, q: seq<Time>, first: int)
    requires Numbering(slots, q, first) && Distinct(q) && FreshFrom(db, first)
    ensures Fills(db, slots, Elements(q))
  {
    forall t | t in Elements(q) ensures Filled(slots, t) {
      var i :| 0 <= i < |q| && q[i] == t;
      assert first + i in slots && slots[first + i] == t;
    }
    forall m, n | m in slots && n in slots && slots[m] == slots[n] ensures m == n {
      assert q[m - first] == q[n - first];
    }
  }

  /** What the handler answers, and the store it commits. */
  ghost predicate CreateOutcome(db: Db, e: Settings, f: SeriesFields, now: Time, s: SeriesId, slots: map<NoteId, Time>,
                                r: Result<(), ApiError>, after: Db)
    requires WellTyped(f)
  {
    match SeriesError(db, e, f)
    case Some(error) => r == Failure(error) && after == db
    case None =>
      && r.Success? && after == CreatedSeries(db, s, f, slots, now)
      && Fills(db, slots, Elements(Generated(e, f).value))
  }

  // recurrence.py:195-303, router.py:798-808
  method CreateSeriesTx(session: Session, e: Settings, f: SeriesFields, now: Time)
    returns (r: Result<(), ApiError>, s: SeriesId, ghost slots: map<NoteId, Time>)
    requires StoreInv(session.db) && FreshFrom(session.db, session.nextUuid)
    requires WellTyped(f)
    modifies session
    ensures CreateOutcome(old(session.db), e, f, now, s, slots, r, session.db)
    ensures r.Success? ==> s == old(session.nextUuid) && s !in old(session.db).series
  {
    hide StoreInv, Expansion, WallOf, Ordinal, Strip, FreshFrom, Fills, CreatedSeries;
    s, slots := 0, map[];
    if !(f.tags <= session.db.tags.Keys) { return Failure(InvalidTag), s, slots; }
    var expanded := ExpandOccurrences(f.localStart, e.zones, f.timezone, f.frequency, f.endDate, Limit(e));
    if expanded.Failure? { return Failure(InvalidRecurrence), s, slots; }
    var occurrences := expanded.value;
    if occurrences == [] || f.startsAt != occurrences[0].instant { return Failure(InvalidRecurrence), s, slots; }
    var title := Strip(f.title);
    if title == "" { return Failure(ValidationError), s, slots; }
    ghost var db := session.db;
    GeneratedAreDistinct(e, f);
    s := session.Uuid();
    slots := InsertSeries(session, s, f, Instants(occurrences), now);
    r := Success(());
  }

  method InsertSeries(session: Session, s: SeriesId, f: SeriesFields, instants: seq<Time>, now: Time)
    returns (ghost slots: map<NoteId, Time>)
    requires StoreInv(session.db) && FreshFrom(session.db, s) && session.nextUuid == s + 1
    requires WellTyped(f) && Distinct(instants)
    modifies session
    ensures session.db == CreatedSeries(old(session.db), s, f, slots, now)
    ensures Fills(old(session.db), slots, Elements(instants)) && s !in old(session.db).series
  {
    hide StoreInv, WallOf, Ordinal, Strip, InsertsFor, Applied, FreshFrom, CreatedSeries;
    ghost var db, first := session.db, session.nextUuid;
    LaterIsFresh(db, s);
    var inserts := Inserts(map[], {}, map[], map[]);
    slots := map[];
    NothingBulk(f, s, now);
    for i := 0 to |instants|
      invariant Numbering(slots, instants[..i], first) && session.nextUuid == first + i && session.db == db
      invariant inserts == InsertsFor(f, s, slots, now)
    {
      var id := session.Uuid();
      assert instants[..i + 1] == instants[..i] + [instants[i]];
      inserts := AddOccurrence(id, instants[i], inserts, s, f, now, slots);
      slots := slots[id := instants[i]];
    }
    assert instants[..|instants|] == instants;
    NumberingFills(db, slots, instants, first);
    InsertedIs(db, s, f, slots, now);
    session.db := session.db.(
      series := session.db.series[s := SeriesRow(f, s, None)],
      seriesTags := session.db.seriesTags + SeriesTagsFor(s, f.tags),
      templates := session.db.templates + TemplatesFor(s, f.offsets),
      notes := session.db.notes + inserts.notes,
      noteTags := session.db.noteTags + inserts.noteTags,
      rules := session.db.rules + inserts.rules,
      deliveries := session.db.deliveries + inserts.deliveries,
      outbox := session.db.outbox + [Event(SeriesUpdated, SeriesEntity(s), 1)]);
  }

  lemma LaterIsFresh(db: Db, s: int)
    requires FreshFrom(db, s)
    ensures FreshFrom(db, s + 1) && s !in db.series
  {
  }

  lemma NothingBulk(f: SeriesFields, s: SeriesId, now: Time)
    ensures InsertsFor(f, s, map[], now) == Inserts(map[], {}, map[], map[])
  {
  }

  lemma InsertedIs(db: Db, s: SeriesId, f: SeriesFields, slots: map<NoteId, Time>, now: Time)
    requires WellTyped(f) && StoreInv(db) && slots.Keys !! db.notes.Keys
    ensures var inserts := InsertsFor(f, s, slots, now);
            CreatedSeries(db, s, f, slots, now) == db.(
              series := db.series[s := SeriesRow(f, s, None)],
              seriesTags := db.seriesTags + SeriesTagsFor(s, f.tags),
              templates := db.templates + TemplatesFor(s, f.offsets),
              notes := db.notes + inserts.notes,
              noteTags := db.noteTags + inserts.noteTags,
              rules := db.rules + inserts.rules,
              deliveries := db.deliveries + inserts.deliveries,
              outbox := db.outbox + [Event(SeriesUpdated, SeriesEntity(s), 1)])
  {
    hide SlotInv, TrashInv, RedactionInv, LineageInv, BulkRules, BulkDeliveries, Applied, Strip, NewBatch;
    BulkIsReconcile(db, s, f, slots, now);
  }
}

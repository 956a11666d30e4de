/** The invariant of the whole store, and the form most transactions take: some note rows
    are rewritten and reconciled, and nothing purged is touched. */
module Store {
  import opened Prelude
  import opened Storage
  import opened Reconciliation
  import opened Progress
  import opened Invariants
  import opened Lineage
  import opened Api

  ghost predicate StoreInv(db: Db) {
    ReminderInv(db) && SlotInv(db) && TrashInv(db) && RedactionInv(db) && LineageInv(db.series)
  }

  /** What every transaction owes: the invariant, and no step backwards. */
  ghost predicate Keeps(a: Db, b: Db) {
    StoreInv(b) && Advances(a, b)
  }

  lemma StoreNumbered(db: Db)
    requires StoreInv(db)
    ensures RulesOwned(db) && Numbered(db)
  {
  }

  /** The rows of notes outside the plan are out of reach of a reconciliation. */
  lemma ReconcileLocal(db: Db, p: Plan, now: Time)
    requires p.wanted.Keys <= db.notes.Keys
    ensures var db' := Reconcile(db, p, now);
            forall dk: DeliveryKey :: dk.rule.note !in p.wanted ==>
              (dk in db'.deliveries <==> dk in db.deliveries)
              && (dk in db.deliveries ==> db'.deliveries[dk] == db.deliveries[dk])
  {
  }

  lemma RulesLocal(db: Db, p: Plan, now: Time)
    requires p.wanted.Keys <= db.notes.Keys
    ensures var db' := Reconcile(db, p, now);
            forall k: RuleKey :: k.note !in p.wanted ==>
              (k in db'.rules <==> k in db.rules) && (k in db.rules ==> db'.rules[k] == db.rules[k])
  {
  }

  // ---------- reconciling one note after another ----------

  function Both(p: Plan, q: Plan): Plan {
    Plan(p.wanted + q.wanted, p.moved + q.moved)
  }

  /** Two plans over different notes, the second one over notes that were rewritten later. */
  ghost predicate InTurn(db: Db, notes: map<NoteId, Note>, p: Plan, q: Plan) {
    && p.wanted.Keys !! q.wanted.Keys && p.moved <= p.wanted.Keys && q.moved <= q.wanted.Keys
    && p.wanted.Keys <= db.notes.Keys && p.wanted.Keys + q.wanted.Keys <= notes.Keys
    && (forall n :: n in p.wanted ==> notes[n] == db.notes[n])
  }

  lemma RuleInTurn(db: Db, notes: map<NoteId, Note>, p: Plan, q: Plan, now: Time, k: RuleKey)
    requires InTurn(db, notes, p, q)
    ensures var a := Reconcile(Reconcile(db, p, now).(notes := notes), q, now);
            var b := Reconcile(db.(notes := notes), Both(p, q), now);
            && (k in a.rules <==> k in b.rules)
            && (k in a.rules ==> a.rules[k] == b.rules[k])
  {
    hide Reconcile;
    RuleRow(db, p, now, k);
    RuleRow(Reconcile(db, p, now).(notes := notes), q, now, k);
    RuleRow(db.(notes := notes), Both(p, q), now, k);
  }

  /** The row of a note that only the second plan names. */
  lemma SecondPlanRow(db: Db, mid: Db, end: Db, p: Plan, q: Plan, now: Time, dk: DeliveryKey)
    requires p.wanted.Keys <= end.notes.Keys && q.wanted.Keys <= end.notes.Keys && mid.notes == end.notes
    requires dk.rule.note !in p.wanted && dk.rule.note !in p.moved
    requires dk.rule in mid.rules <==> dk.rule in end.rules
    requires dk.rule in mid.rules ==> mid.rules[dk.rule] == end.rules[dk.rule]
    requires dk in mid.deliveries <==> dk in end.deliveries
    requires dk in mid.deliveries ==> mid.deliveries[dk] == end.deliveries[dk]
    ensures IsNewCycle(mid, q, dk) <==> IsNewCycle(end, Both(p, q), dk)
    ensures dk in mid.deliveries || IsNewCycle(mid, q, dk) ==>
              DeliveryAfter(mid, q, now, dk) == DeliveryAfter(end, Both(p, q), now, dk)
  {
  }

  /** The row of a note that the second plan does not name. */
  lemma FirstPlanRow(db: Db, end: Db, p: Plan, q: Plan, now: Time, dk: DeliveryKey)
    requires p.wanted.Keys <= db.notes.Keys && (p.wanted + q.wanted).Keys <= end.notes.Keys
    requires dk.rule.note !in q.wanted && dk.rule.note !in q.moved
    requires dk.rule.note in p.wanted ==> end.notes[dk.rule.note] == db.notes[dk.rule.note]
    requires end.rules == db.rules && end.deliveries == db.deliveries
    ensures IsNewCycle(db, p, dk) <==> IsNewCycle(end, Both(p, q), dk)
    ensures dk in db.deliveries || IsNewCycle(db, p, dk) ==>
              DeliveryAfter(db, p, now, dk) == DeliveryAfter(end, Both(p, q), now, dk)
  {
  }

  lemma DeliveryInTurn(db: Db, notes: map<NoteId, Note>, p: Plan, q: Plan, now: Time, dk: DeliveryKey)
    requires InTurn(db, notes, p, q)
    ensures var a := Reconcile(Reconcile(db, p, now).(notes := notes), q, now);
            var b := Reconcile(db.(notes := notes), Both(p, q), now);
            && (dk in a.deliveries <==> dk in b.deliveries)
            && (dk in a.deliveries ==> a.deliveries[dk] == b.deliveries[dk])
  {
    hide Reconcile, NewDelivery, CancelOpen, Refresh, RuleAfter, IsNewCycle, Recycles, IsNewRule;
    var mid, end := Reconcile(db, p, now).(notes := notes), db.(notes := notes);
    DeliveryRow(db, p, now, dk);
    DeliveryRow(mid, q, now, dk);
    DeliveryRow(end, Both(p, q), now, dk);
    if dk.rule.note in q.wanted {
      RulesLocal(db, p, now);
      ReconcileLocal(db, p, now);
      SecondPlanRow(db, mid, end, p, q, now, dk);
    } else {
      FirstPlanRow(db, end, p, q, now, dk);
      UnplannedRow(mid, q, now, dk);
    }
  }

  lemma UnplannedRow(db: Db, p: Plan, now: Time, dk: DeliveryKey)
    requires p.wanted.Keys <= db.notes.Keys && dk.rule.note !in p.wanted
    ensures !IsNewCycle(db, p, dk) && (dk in db.deliveries ==> DeliveryAfter(db, p, now, dk) == db.deliveries[dk])
  {
  }

  /** Reconciling note after note has the effect of one plan over all of them. */
  lemma ReconcileInTurn(db: Db, notes: map<NoteId, Note>, p: Plan, q: Plan, now: Time)
    requires InTurn(db, notes, p, q)
    ensures Reconcile(Reconcile(db, p, now).(notes := notes), q, now)
         == Reconcile(db.(notes := notes), Both(p, q), now)
  {
    hide Reconcile;
    var a := Reconcile(Reconcile(db, p, now).(notes := notes), q, now);
    var b := Reconcile(db.(notes := notes), Both(p, q), now);
    forall k: RuleKey ensures (k in a.rules <==> k in b.rules) && (k in a.rules ==> a.rules[k] == b.rules[k]) {
      RuleInTurn(db, notes, p, q, now, k);
    }
    assert a.rules == b.rules;
    forall dk: DeliveryKey
      ensures (dk in a.deliveries <==> dk in b.deliveries)
              && (dk in a.deliveries ==> a.deliveries[dk] == b.deliveries[dk])
    {
      DeliveryInTurn(db, notes, p, q, now, dk);
    }
    assert a.deliveries == b.deliveries;
  }

  /** A reconciliation reads notes, rules and deliveries only. */
  lemma SameInputs(a: Db, b: Db, p: Plan, now: Time)
    requires p.wanted.Keys <= a.notes.Keys
    requires b.notes == a.notes && b.rules == a.rules && b.deliveries == a.deliveries
    ensures var a' := Reconcile(a, p, now);
            Reconcile(b, p, now) == b.(rules := a'.rules, deliveries := a'.deliveries)
  {
    forall k: RuleKey
      ensures IsNewRule(a, p, k) <==> IsNewRule(b, p, k)
      ensures Recycles(a, p, k) <==> Recycles(b, p, k)
      ensures RuleAfter(a, p, k) == RuleAfter(b, p, k)
    {
    }
    assert NewRules(a, p) == NewRules(b, p);
    forall dk: DeliveryKey ensures IsNewCycle(a, p, dk) <==> IsNewCycle(b, p, dk) {
    }
    assert NewCycles(a, p) == NewCycles(b, p);
    assert Reconcile(a, p, now).rules == Reconcile(b, p, now).rules;
    SameRows(a, b, p, now);
  }

  lemma SameRows(a: Db, b: Db, p: Plan, now: Time)
    requires p.wanted.Keys <= a.notes.Keys
    requires b.notes == a.notes && b.rules == a.rules && b.deliveries == a.deliveries
    requires NewCycles(a, p) == NewCycles(b, p)
    ensures Reconcile(a, p, now).deliveries == Reconcile(b, p, now).deliveries
  {
    hide NewCycles, NewRules, RuleAfter;
    forall dk: DeliveryKey | dk in a.deliveries || dk.rule.note in p.wanted
      ensures DeliveryAfter(a, p, now, dk) == DeliveryAfter(b, p, now, dk)
    {
    }
  }

  lemma RefreshAdvances(d: Delivery, n: Note, offset: int, now: Time)
    ensures DeliveryAdvances(d, Refresh(d, n, offset, now)) && DeliveryAdvances(d, CancelOpen(d, now))
  {
  }

  lemma ReconcileAdvances(db: Db, p: Plan, now: Time)
    requires p.wanted.Keys <= db.notes.Keys
    ensures DeliveriesAdvance(db, Reconcile(db, p, now)) && RulesAdvance(db, Reconcile(db, p, now))
  {
    var db' := Reconcile(db, p, now);
    forall dk | dk in db.deliveries
      ensures dk in db'.deliveries && DeliveryAdvances(db.deliveries[dk], db'.deliveries[dk])
    {
      assert db'.deliveries[dk] == DeliveryAfter(db, p, now, dk);
      if dk.rule.note in p.wanted {
        RefreshAdvances(db.deliveries[dk], db.notes[dk.rule.note], dk.rule.offset, now);
      }
    }
  }

  // ---------- a transaction that rewrites notes and reconciles them ----------

  /** The tables around the reminders: everything an edit changes besides rules and deliveries. */
  ghost predicate Surroundings(a: Db, b: Db, c: Db) {
    // c is the result; b is a with its new notes reconciled.
    c == b.(series := c.series, actions := c.actions, members := c.members, exceptions := c.exceptions,
            noteTags := c.noteTags,
            seriesTags := c.seriesTags, templates := c.templates, tags := c.tags, outbox := c.outbox)
    && a.outbox <= c.outbox
  }

  predicate SameSlotRow(n: Note, n': Note) {
    n'.seriesId == n.seriesId && n'.recurrenceKey == n.recurrenceKey
  }

  lemma SameReminders(b: Db, c: Db)
    requires ReminderInv(b) && c.notes == b.notes && c.rules == b.rules
    requires c.deliveries == b.deliveries && c.notifications == b.notifications
    ensures ReminderInv(c)
  {
    assert RulesOwned(c) && Numbered(c) && Scheduled(c) && Shaped(c) && Notified(c);
    forall dk | dk in c.deliveries && Open(c.deliveries[dk]) ensures Deliverable(c, dk) {
      assert Deliverable(b, dk);
    }
  }

  lemma EditAdvances(a: Db, notes: map<NoteId, Note>, p: Plan, now: Time, c: Db)
    requires a.notes.Keys <= notes.Keys && p.wanted.Keys <= notes.Keys
    requires Surroundings(a, Reconcile(a.(notes := notes), p, now), c)
    requires NotesAdvance(a, c) && SeriesAdvances(a, c) && ActionsAdvance(a, c)
    ensures Advances(a, c)
  {
    hide NotesAdvance, SeriesAdvances, ActionsAdvance;
    ReconcileAdvances(a.(notes := notes), p, now);
  }

  lemma TransactionKeeps(a: Db, notes: map<NoteId, Note>, p: Plan, now: Time, c: Db)
    requires StoreInv(a) && PlanCovers(a, notes, p)
    requires Surroundings(a, Reconcile(a.(notes := notes), p, now), c)
    requires SlotInv(c) && LineageInv(c.series) && TrashInv(c) && ActionsAdvance(a, c)
    requires NotesFrozen(a, c) && SeriesFrozen(a, c)
    ensures Keeps(a, c)
  {
    hide ReminderInv, SlotInv, LineageInv, NoteRedaction, SeriesRedaction, NotesFrozen, SeriesFrozen, Reconcile,
         TrashInv, ActionsAdvance;
    ReconcileKeepsInv(a, notes, p, now);
    SameReminders(Reconcile(a.(notes := notes), p, now), c);
    FrozenNotes(a, c);
    FrozenSeries(a, c);
    EditAdvances(a, notes, p, now, c);
  }

  lemma EditKeeps(a: Db, notes: map<NoteId, Note>, p: Plan, now: Time, c: Db)
    requires StoreInv(a) && PlanCovers(a, notes, p)
    requires Surroundings(a, Reconcile(a.(notes := notes), p, now), c)
    requires c.actions == a.actions && c.members == a.members
    requires SlotInv(c) && LineageInv(c.series)
    requires forall n :: n in notes ==> LeavesActions(Row(a, n), notes[n])
    requires NotesFrozen(a, c) && SeriesFrozen(a, c)
    ensures Keeps(a, c)
  {
    hide ReminderInv, SlotInv, LineageInv, RedactionInv, NotesFrozen, SeriesFrozen, Reconcile, Advances;
    LeavingActionsKeepsTrash(a, c);
    TransactionKeeps(a, notes, p, now, c);
  }

  /** A version bump on the series of an unpurged note. */
  lemma BumpKeeps(db: Db, n: NoteId, s: SeriesId)
    requires StoreInv(db) && n in db.notes && db.notes[n].purgedAt.None? && db.notes[n].seriesId == Some(s)
    requires s in db.series
    ensures Keeps(db, Bumped(db, s))
  {
    hide NoteRedaction, ReminderInv, TrashInv, NotesAdvance, ActionsAdvance, LineageInv, SlotInv;
    var db' := Bumped(db, s);
    SameReminders(db, db');
    BumpLinks(db, s);
    LeavesAll(db, db');
    BumpFrozen(db, n, s);
    FrozenSeries(db, db');
    AdvancesReflexive(db);
  }

  lemma BumpLinks(db: Db, s: SeriesId)
    requires SlotInv(db) && LineageInv(db.series) && s in db.series
    ensures SlotInv(Bumped(db, s)) && LineageInv(Bumped(db, s).series)
  {
    var db' := Bumped(db, s);
    SameLinksKeepLineage(db.series, db'.series);
    forall m | m in db'.notes ensures Slotted(db', m) { assert Slotted(db, m); }
  }

  lemma BumpFrozen(db: Db, n: NoteId, s: SeriesId)
    requires SeriesRedaction(db) && n in db.notes && db.notes[n].purgedAt.None? && db.notes[n].seriesId == Some(s)
    requires s in db.series
    ensures SeriesFrozen(db, Bumped(db, s))
  {
  }

  lemma LeavesAll(a: Db, b: Db)
    requires TrashInv(a) && NoteRedaction(a) && b == a.(series := b.series)
    ensures TrashInv(b) && ActionsAdvance(a, b) && NoteRedaction(b) && NotesAdvance(a, b)
  {
    assert NotesFrozen(a, b);
    FrozenNotes(a, b);
    NothingPointsElsewhere(a);
    LeavingActionsKeepsTrash(a, b);
  }

  lemma NothingPointsElsewhere(a: Db)
    ensures forall n :: n in a.notes ==> LeavesActions(Row(a, n), a.notes[n])
  {
  }

  // ---------- what a forward clock adds ----------

  /** No deadline was acted on or written off before its time, as of `clock`: what is neither
      pending nor cancelled is due, and so is what was cancelled although it could be delivered. */
  predicate InTime(db: Db, dk: DeliveryKey, clock: Time)
    requires dk in db.deliveries
  {
    var d := db.deliveries[dk];
    && (!d.state.Pending? && !d.state.Cancelled? ==> d.dueAt <= clock)
    && (d.state.Cancelled? && Deliverable(db, dk) ==> d.dueAt <= clock)
  }

  ghost predicate OnTime(db: Db, clock: Time) {
    forall dk :: dk in db.deliveries ==> InTime(db, dk, clock)
  }

  ghost predicate PlanNotesOnly(db: Db, notes: map<NoteId, Note>, p: Plan) {
    forall n :: n in db.notes && n !in p.wanted ==> n in notes && notes[n] == db.notes[n]
  }

  lemma ReconcileOnTime(db: Db, notes: map<NoteId, Note>, p: Plan, clock: Time, now: Time, dk: DeliveryKey)
    requires ReminderInv(db) && OnTime(db, clock) && clock <= now
    requires PlanCovers(db, notes, p) && PlanNotesOnly(db, notes, p)
    requires dk in Reconcile(db.(notes := notes), p, now).deliveries
    ensures InTime(Reconcile(db.(notes := notes), p, now), dk, now)
  {
    hide Reconcile, Shaped, Notified, NewDelivery;
    var mid := db.(notes := notes);
    var c := Reconcile(mid, p, now);
    DeliveryRow(mid, p, now, dk);
    RuleRow(mid, p, now, dk.rule);
    ReconcileKeepsInv(db, notes, p, now);
    if dk in db.deliveries {
      assert InTime(db, dk, clock);
      assert dk.rule in c.rules && dk == CurrentKey(c, dk.rule) && c.rules[dk.rule].enabled ==>
        c.deliveries[dk].dueAt == DueAt(notes[dk.rule.note].startsAt, dk.rule.offset);
    } else {
      FreshOnTime(notes[dk.rule.note], dk.rule.offset, now);
    }
  }

  lemma FreshOnTime(n: Note, offset: int, now: Time)
    ensures var d := NewDelivery(n, offset, now);
            && (d.state.Cancelled? <==> !Live(n))
            && (!d.state.Pending? && !d.state.Cancelled? ==> d.dueAt <= now)
  {
  }

  lemma EditOnTime(db: Db, notes: map<NoteId, Note>, p: Plan, clock: Time, now: Time, c: Db)
    requires ReminderInv(db) && OnTime(db, clock) && clock <= now
    requires PlanCovers(db, notes, p) && PlanNotesOnly(db, notes, p)
    requires var b := Reconcile(db.(notes := notes), p, now);
             c.notes == b.notes && c.rules == b.rules && c.deliveries == b.deliveries
    ensures OnTime(c, now)
  {
    hide Reconcile, ReminderInv;
    var b := Reconcile(db.(notes := notes), p, now);
    forall dk | dk in c.deliveries ensures InTime(c, dk, now) {
      ReconcileOnTime(db, notes, p, clock, now, dk);
      assert Deliverable(c, dk) <==> Deliverable(b, dk);
    }
  }

  /** The reminder at `offset` is on its way: its current delivery is pending and due then. */
  predicate Armed(db: Db, n: NoteId, offset: int)
    requires n in db.notes
  {
    var k := RuleKey(n, offset);
    && k in db.rules && CurrentKey(db, k) in db.deliveries
    && var d := db.deliveries[CurrentKey(db, k)];
       d.state.Pending? && d.dueAt == db.notes[n].startsAt - offset * MINUTE && d.resultAt.None?
  }

  /** Every enabled reminder of a live note whose deadline is ahead is armed. */
  lemma AheadIsArmed(db: Db, clock: Time, n: NoteId, offset: int)
    requires ReminderInv(db) && OnTime(db, clock) && n in db.notes
    requires db.notes[n].active && db.notes[n].deletedAt.None? && db.notes[n].supersededAt.None?
    requires db.notes[n].purgedAt.None? && RuleKey(n, offset) in db.rules && db.rules[RuleKey(n, offset)].enabled
    requires db.notes[n].startsAt - offset * MINUTE > clock
    ensures Armed(db, n, offset)
  {
    var k := RuleKey(n, offset);
    var dk := CurrentKey(db, k);
    assert dk in db.deliveries;
    assert InTime(db, dk, clock) && Deliverable(db, dk) && Shape(db.deliveries[dk]);
  }
}

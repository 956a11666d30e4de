/** What reconcile_reminders does to the reminder tables, stated row by row.

    A `Plan` names the notes being reconciled, the offsets each of them should have, and
    the notes whose schedule moved. Handlers that reconcile one note after another have
    the same effect as one plan over all of them (see `ReconcileInTurn`). */
module Reconciliation {
  import opened Prelude
  import opened Storage

  datatype Plan = Plan(wanted: map<NoteId, set<int>>, moved: set<NoteId>)

  function NoteState(n: Note, deadline: Time, now: Time): DeliveryState {
    if !Live(n) then Cancelled else if deadline <= now then Missed else Pending
  }

  // _new_delivery
  function NewDelivery(n: Note, offset: int, now: Time): Delivery {
    var deadline := DueAt(n.startsAt, offset);
    var state := NoteState(n, deadline, now);
    Delivery(deadline, state, None, None, None, None, None,
             if state.Pending? then None else Some(now), None)
  }

  function CancelOpen(d: Delivery, now: Time): Delivery {
    if Open(d)
    then d.(state := Cancelled, claimToken := None, claimExpiresAt := None, resultAt := Some(now))
    else d
  }

  // An enabled rule whose schedule did not move: reopen what lies in the future.
  function Refresh(d: Delivery, n: Note, offset: int, now: Time): Delivery {
    if (Open(d) || d.state.Cancelled?) && Live(n) && DueAt(n.startsAt, offset) > now
    then d.(state := Pending, claimToken := None, claimExpiresAt := None, resultAt := None)
    else CancelOpen(d, now)
  }

  predicate Wanted(p: Plan, k: RuleKey) {
    k.note in p.wanted && k.offset in p.wanted[k.note]
  }

  /** The rule starts a new cycle: its schedule moved or it is being re-enabled. */
  predicate Recycles(db: Db, p: Plan, k: RuleKey) {
    k in db.rules && Wanted(p, k) && (k.note in p.moved || !db.rules[k].enabled)
  }

  function RuleAfter(db: Db, p: Plan, k: RuleKey): Rule {
    if k !in db.rules then Rule(true, 1)
    else if k.note !in p.wanted then db.rules[k]
    else if !Wanted(p, k) then db.rules[k].(enabled := false)
    else Rule(true, if Recycles(db, p, k) then db.rules[k].cycle + 1 else db.rules[k].cycle)
  }

  function DeliveryAfter(db: Db, p: Plan, now: Time, dk: DeliveryKey): Delivery
    requires p.wanted.Keys <= db.notes.Keys
    requires dk in db.deliveries || dk.rule.note in p.wanted
  {
    if dk !in db.deliveries then NewDelivery(db.notes[dk.rule.note], dk.rule.offset, now)
    else
      var d := db.deliveries[dk];
      if dk.rule.note !in p.wanted || dk.rule !in db.rules || dk != CurrentKey(db, dk.rule) then d
      else if !Wanted(p, dk.rule) || Recycles(db, p, dk.rule) then CancelOpen(d, now)
      else Refresh(d, db.notes[dk.rule.note], dk.rule.offset, now)
  }

  predicate IsNewRule(db: Db, p: Plan, k: RuleKey) {
    Wanted(p, k) && k !in db.rules
  }

  predicate IsNewCycle(db: Db, p: Plan, dk: DeliveryKey) {
    || (IsNewRule(db, p, dk.rule) && dk.cycle == 1)
    || (Recycles(db, p, dk.rule) && dk.cycle == db.rules[dk.rule].cycle + 1)
  }

  function NewRules(db: Db, p: Plan): (s: set<RuleKey>)
    ensures forall k :: k in s <==> IsNewRule(db, p, k)
  {
    set n, o | n in p.wanted && o in p.wanted[n] && RuleKey(n, o) !in db.rules :: RuleKey(n, o)
  }

  function NewCycles(db: Db, p: Plan): (s: set<DeliveryKey>)
    ensures forall dk :: dk in s <==> IsNewCycle(db, p, dk)
  {
    (set k | k in NewRules(db, p) :: DeliveryKey(k, 1))
    + (set k | k in db.rules && Recycles(db, p, k) :: DeliveryKey(k, db.rules[k].cycle + 1))
  }

  /** Only the reminder rules and their deliveries are written. */
  function Reconcile(db: Db, p: Plan, now: Time): (db': Db)
    requires p.wanted.Keys <= db.notes.Keys
    ensures db' == db.(rules := db'.rules, deliveries := db'.deliveries)
  {
    db.(rules := map k | k in db.rules.Keys + NewRules(db, p) :: RuleAfter(db, p, k),
        deliveries := map dk | dk in db.deliveries.Keys + NewCycles(db, p)
                        :: DeliveryAfter(db, p, now, dk))
  }

  /** The rows of a reconciled store, one key at a time. */
  lemma RuleRow(db: Db, p: Plan, now: Time, k: RuleKey)
    requires p.wanted.Keys <= db.notes.Keys
    ensures var db' := Reconcile(db, p, now);
            && (k in db'.rules <==> k in db.rules || IsNewRule(db, p, k))
            && (k in db'.rules ==> db'.rules[k] == RuleAfter(db, p, k))
  {
  }

  lemma DeliveryRow(db: Db, p: Plan, now: Time, dk: DeliveryKey)
    requires p.wanted.Keys <= db.notes.Keys
    ensures var db' := Reconcile(db, p, now);
            && (dk in db'.deliveries <==> dk in db.deliveries || IsNewCycle(db, p, dk))
            && (dk in db'.deliveries ==> db'.deliveries[dk] == DeliveryAfter(db, p, now, dk))
  {
  }

  // ---------- The reminder invariant ----------

  ghost predicate RulesOwned(db: Db) {
    forall k :: k in db.rules ==> k.note in db.notes && db.rules[k].cycle >= 1
  }

  /** Each rule's deliveries are numbered exactly 1..current_cycle_number. */
  ghost predicate Numbered(db: Db) {
    forall dk: DeliveryKey :: dk in db.deliveries <==>
      dk.rule in db.rules && 1 <= dk.cycle <= db.rules[dk.rule].cycle
  }

  /** The current delivery of an enabled rule is due `offset` before the note starts. */
  ghost predicate Scheduled(db: Db) {
    forall k | k in db.rules && db.rules[k].enabled && CurrentKey(db, k) in db.deliveries
               && k.note in db.notes ::
      db.deliveries[CurrentKey(db, k)].dueAt == DueAt(db.notes[k.note].startsAt, k.offset)
  }

  /** The delivery may still lead to an email: current cycle, enabled rule, live note. */
  predicate Deliverable(db: Db, dk: DeliveryKey) {
    && dk.rule in db.rules && dk.cycle == db.rules[dk.rule].cycle && db.rules[dk.rule].enabled
    && dk.rule.note in db.notes && Live(db.notes[dk.rule.note])
  }

  ghost predicate OpenIsDeliverable(db: Db) {
    forall dk :: dk in db.deliveries && Open(db.deliveries[dk]) ==> Deliverable(db, dk)
  }

  ghost predicate Shaped(db: Db) {
    forall dk :: dk in db.deliveries ==> Shape(db.deliveries[dk])
  }

  /** Exactly the authorized deliveries have a notification. */
  ghost predicate Notified(db: Db) {
    forall dk :: dk in db.notifications <==>
      dk in db.deliveries && db.deliveries[dk].authorizedAt.Some?
  }

  ghost predicate ReminderInv(db: Db) {
    RulesOwned(db) && Numbered(db) && Scheduled(db) && OpenIsDeliverable(db) && Shaped(db)
    && Notified(db)
  }

  // ---------- Facts about one reconciliation ----------

  const NO_PLAN := Plan(map[], {})

  lemma StillNumbered(a: Db, b: Db)
    requires RulesOwned(a) && Numbered(a) && b.rules == a.rules && b.deliveries == a.deliveries
    requires a.notes.Keys <= b.notes.Keys
    ensures RulesOwned(b) && Numbered(b)
  {
  }

  /** A new cycle never overwrites a delivery, so no unique key can collide. */
  lemma NewCyclesAreFresh(db: Db, p: Plan)
    requires Numbered(db)
    ensures NewCycles(db, p) !! db.deliveries.Keys
  {
  }

  /** What a note table may become between two states for the reminders to stay in step:
      the plan covers every note that lost its life, moved or is new. */
  ghost predicate PlanCovers(db: Db, notes: map<NoteId, Note>, p: Plan) {
    && db.notes.Keys <= notes.Keys && p.wanted.Keys <= notes.Keys
    && (forall n :: n in db.notes ==> CoversNote(db.notes[n], notes[n], n, p))
  }

  predicate CoversNote(before: Note, after: Note, n: NoteId, p: Plan) {
    && (n in p.wanted || (Live(before) ==> Live(after)))
    && ((n in p.wanted && n in p.moved) || after.startsAt == before.startsAt)
  }

  lemma KeepsNumbered(db: Db, p: Plan, now: Time)
    requires p.wanted.Keys <= db.notes.Keys && RulesOwned(db) && Numbered(db)
    ensures RulesOwned(Reconcile(db, p, now)) && Numbered(Reconcile(db, p, now))
  {
    var db' := Reconcile(db, p, now);
    forall dk: DeliveryKey
      ensures dk in db'.deliveries <==> dk.rule in db'.rules && 1 <= dk.cycle <= db'.rules[dk.rule].cycle
    {
      assert dk in db'.deliveries <==> dk in db.deliveries || IsNewCycle(db, p, dk);
    }
  }

  lemma KeepsScheduled(db: Db, notes: map<NoteId, Note>, p: Plan, now: Time)
    requires RulesOwned(db) && Numbered(db) && Scheduled(db) && PlanCovers(db, notes, p)
    ensures Scheduled(Reconcile(db.(notes := notes), p, now))
  {
    var db1 := db.(notes := notes);
    var db' := Reconcile(db1, p, now);
    forall k | k in db'.rules && db'.rules[k].enabled && CurrentKey(db', k) in db'.deliveries && k.note in notes
      ensures db'.deliveries[CurrentKey(db', k)].dueAt == DueAt(notes[k.note].startsAt, k.offset)
    {
      var dk := CurrentKey(db', k);
      assert db'.deliveries[dk] == DeliveryAfter(db1, p, now, dk);
      if dk in db.deliveries {
        assert !Recycles(db1, p, k);
        assert db.rules[k].enabled && dk == CurrentKey(db, k);
        assert CoversNote(db.notes[k.note], notes[k.note], k.note, p);
      }
    }
  }

  lemma KeepsDeliverable(db: Db, notes: map<NoteId, Note>, p: Plan, now: Time)
    requires RulesOwned(db) && Numbered(db) && OpenIsDeliverable(db) && PlanCovers(db, notes, p)
    ensures OpenIsDeliverable(Reconcile(db.(notes := notes), p, now))
  {
    var db1 := db.(notes := notes);
    var db' := Reconcile(db1, p, now);
    forall dk | dk in db'.deliveries && Open(db'.deliveries[dk]) ensures Deliverable(db', dk) {
      assert db'.deliveries[dk] == DeliveryAfter(db1, p, now, dk);
      if dk in db.deliveries {
        if Open(db.deliveries[dk]) {
          assert Deliverable(db, dk);
          assert CoversNote(db.notes[dk.rule.note], notes[dk.rule.note], dk.rule.note, p);
        }
      } else {
        assert IsNewCycle(db1, p, dk);
      }
    }
  }

  predicate SameAttempt(d: Delivery, d': Delivery) {
    Shape(d') && (d.authorizedAt.Some? <==> d'.authorizedAt.Some?)
  }

  lemma RowShape(d: Delivery, n: Note, offset: int, now: Time)
    ensures Shape(d) ==> SameAttempt(d, CancelOpen(d, now)) && SameAttempt(d, Refresh(d, n, offset, now))
    ensures Shape(NewDelivery(n, offset, now)) && NewDelivery(n, offset, now).authorizedAt.None?
  {
  }

  lemma KeepsShape(db: Db, p: Plan, now: Time)
    requires p.wanted.Keys <= db.notes.Keys && Shaped(db) && Notified(db)
    ensures Shaped(Reconcile(db, p, now)) && Notified(Reconcile(db, p, now))
  {
    var db' := Reconcile(db, p, now);
    forall dk | dk in db'.deliveries
      ensures Shape(db'.deliveries[dk])
      ensures db'.deliveries[dk].authorizedAt.Some? <==>
                dk in db.deliveries && db.deliveries[dk].authorizedAt.Some?
    {
      ShapeAfter(db, p, now, dk);
    }
  }

  lemma ShapeAfter(db: Db, p: Plan, now: Time, dk: DeliveryKey)
    requires p.wanted.Keys <= db.notes.Keys
    requires dk in db.deliveries || dk.rule.note in p.wanted
    requires dk in db.deliveries ==> Shape(db.deliveries[dk])
    ensures var d := DeliveryAfter(db, p, now, dk);
            Shape(d) && (d.authorizedAt.Some? <==> dk in db.deliveries && db.deliveries[dk].authorizedAt.Some?)
  {
  }

  lemma ReconcileKeepsInv(db: Db, notes: map<NoteId, Note>, p: Plan, now: Time)
    requires ReminderInv(db) && PlanCovers(db, notes, p)
    ensures ReminderInv(Reconcile(db.(notes := notes), p, now))
  {
    var db1 := db.(notes := notes);
    KeepsNumbered(db1, p, now);
    KeepsScheduled(db, notes, p, now);
    KeepsDeliverable(db, notes, p, now);
    KeepsShape(db1, p, now);
  }

  /** Cycle numbers grow by one exactly when the schedule moved or a disabled offset is wanted
      again, and every rule has at most one new delivery. */
  lemma CyclesGrow(db: Db, p: Plan, now: Time, k: RuleKey)
    requires p.wanted.Keys <= db.notes.Keys && RulesOwned(db) && Numbered(db) && k in db.rules
    ensures var db' := Reconcile(db, p, now);
            && k in db'.rules
            && db'.rules[k].cycle == db.rules[k].cycle + (if Recycles(db, p, k) then 1 else 0)
            && (forall dk: DeliveryKey :: dk.rule == k && dk in db'.deliveries && dk !in db.deliveries ==>
                  Recycles(db, p, k) && dk.cycle == db'.rules[k].cycle)
  {
    hide Reconcile;
    RuleRow(db, p, now, k);
    forall dk: DeliveryKey | dk.rule == k && dk in Reconcile(db, p, now).deliveries && dk !in db.deliveries
      ensures Recycles(db, p, k) && dk.cycle == db.rules[k].cycle + 1
    {
      DeliveryRow(db, p, now, dk);
    }
  }

  lemma RefreshTwice(d: Delivery, n: Note, offset: int, now: Time)
    ensures var r := Refresh(d, n, offset, now); Refresh(r, n, offset, now) == r
    ensures var r := CancelOpen(d, now); CancelOpen(r, now) == r
    ensures var r := NewDelivery(n, offset, now); Refresh(r, n, offset, now) == r
  {
  }

  lemma NothingNew(db: Db, p: Plan, now: Time)
    requires p.wanted.Keys <= db.notes.Keys
    ensures var once := Reconcile(db, p, now); var q := Plan(p.wanted, {});
            && (forall k :: !IsNewRule(once, q, k) && !Recycles(once, q, k))
            && (forall k :: k in once.rules ==> RuleAfter(once, q, k) == once.rules[k])
  {
    var once := Reconcile(db, p, now);
    var q := Plan(p.wanted, {});
    forall k: RuleKey
      ensures !IsNewRule(once, q, k) && !Recycles(once, q, k)
      ensures k in once.rules ==> RuleAfter(once, q, k) == once.rules[k]
    {
      assert k in once.rules <==> k in db.rules || IsNewRule(db, p, k);
      if k in once.rules { assert once.rules[k] == RuleAfter(db, p, k); }
    }
  }

  lemma Unchanged(db: Db, p: Plan, now: Time)
    requires p.wanted.Keys <= db.notes.Keys
    requires forall k :: !IsNewRule(db, p, k) && !Recycles(db, p, k)
    requires forall k :: k in db.rules ==> RuleAfter(db, p, k) == db.rules[k]
    requires forall dk :: dk in db.deliveries ==> DeliveryAfter(db, p, now, dk) == db.deliveries[dk]
    ensures Reconcile(db, p, now) == db
  {
    assert NewRules(db, p) == {} && NewCycles(db, p) == {};
    var db' := Reconcile(db, p, now);
    assert db'.rules == db.rules;
    assert db'.deliveries == db.deliveries;
  }

  /** Reconciling again, with nothing moved in between, changes nothing. */
  lemma ReconcileIdempotent(db: Db, p: Plan, now: Time)
    requires p.wanted.Keys <= db.notes.Keys && RulesOwned(db) && Numbered(db)
    ensures var once := Reconcile(db, p, now);
            Reconcile(once, Plan(p.wanted, {}), now) == once
  {
    var once := Reconcile(db, p, now);
    NothingNew(db, p, now);
    forall dk | dk in once.deliveries
      ensures DeliveryAfter(once, Plan(p.wanted, {}), now, dk) == once.deliveries[dk]
    {
      SecondTime(db, p, now, dk);
    }
    Unchanged(once, Plan(p.wanted, {}), now);
  }

  lemma SecondTime(db: Db, p: Plan, now: Time, dk: DeliveryKey)
    requires p.wanted.Keys <= db.notes.Keys && RulesOwned(db) && Numbered(db)
    requires dk in Reconcile(db, p, now).deliveries
    ensures var once := Reconcile(db, p, now);
            DeliveryAfter(once, Plan(p.wanted, {}), now, dk) == once.deliveries[dk]
  {
    var once := Reconcile(db, p, now);
    assert once.deliveries[dk] == DeliveryAfter(db, p, now, dk);
    if dk.rule.note in p.wanted {
      var n := db.notes[dk.rule.note];
      if dk in db.deliveries { RefreshTwice(db.deliveries[dk], n, dk.rule.offset, now); }
      else { RefreshTwice(NewDelivery(n, dk.rule.offset, now), n, dk.rule.offset, now); }
    }
  }

  // ---------- what a reconciliation leaves, delivery by delivery ----------

  /** The first delivery of a new cycle: withdrawn at once when the note is inactive, in the trash
      or gone, else missed when its deadline has come, else pending. */
  predicate BeginsAs(d: Delivery, n: Note, offset: int, now: Time) {
    var deadline := n.startsAt - offset * MINUTE;
    var live := n.active && n.deletedAt.None? && n.supersededAt.None? && n.purgedAt.None?;
    && d.dueAt == deadline
    && (d.state.Cancelled? <==> !live)
    && (d.state.Missed? <==> live && deadline <= now)
    && (d.state.Pending? <==> live && deadline > now)
    && d.resultAt == (if d.state.Pending? then None else Some(now))
    && d.claimToken.None? && d.claimExpiresAt.None? && d.authorizedAt.None? && d.recipient.None? && d.content.None?
    && d.errorCode.None?
  }

  lemma NewCycleBegins(db: Db, p: Plan, now: Time, dk: DeliveryKey)
    requires p.wanted.Keys <= db.notes.Keys && dk !in db.deliveries && dk in Reconcile(db, p, now).deliveries
    ensures dk.rule.note in db.notes
    ensures BeginsAs(Reconcile(db, p, now).deliveries[dk], db.notes[dk.rule.note], dk.rule.offset, now)
  {
    hide Reconcile;
    DeliveryRow(db, p, now, dk);
  }

  /** The delivery still serves the schedule: its rule is enabled, wanted and on this cycle, and
      the note did not move. */
  predicate Serves(db: Db, p: Plan, dk: DeliveryKey) {
    && dk.rule.note in p.wanted && dk.rule.offset in p.wanted[dk.rule.note] && dk.rule.note !in p.moved
    && dk.rule in db.rules && db.rules[dk.rule].enabled && db.rules[dk.rule].cycle == dk.cycle
  }

  /** What becomes of a delivery: one that was acted on, or is not the current one of a planned
      note, stays as it was; one that serves a live note ahead of its deadline is pending, even if
      it was claimed or cancelled; any other that was pending or claimed is cancelled now. */
  lemma OldCycleEnds(db: Db, p: Plan, now: Time, dk: DeliveryKey)
    requires p.wanted.Keys <= db.notes.Keys && dk in db.deliveries
    ensures dk in Reconcile(db, p, now).deliveries
    ensures var d, d' := db.deliveries[dk], Reconcile(db, p, now).deliveries[dk];
            if dk.rule.note !in p.wanted || dk.rule !in db.rules || db.rules[dk.rule].cycle != dk.cycle
               || d.state !in {Pending, Claimed, Cancelled}
            then d' == d
            else
              var n := db.notes[dk.rule.note];
              if Serves(db, p, dk) && n.active && n.deletedAt.None? && n.supersededAt.None? && n.purgedAt.None?
                 && n.startsAt - dk.rule.offset * MINUTE > now
              then d' == d.(state := Pending, claimToken := None, claimExpiresAt := None, resultAt := None)
              else if d.state.Cancelled? then d' == d
              else d' == d.(state := Cancelled, claimToken := None, claimExpiresAt := None, resultAt := Some(now))
  {
    hide Reconcile;
    DeliveryRow(db, p, now, dk);
  }

  /** What becomes of a rule: it is enabled exactly when its offset is wanted, and a disabled one
      keeps its cycle. */
  lemma RuleEnds(db: Db, p: Plan, now: Time, k: RuleKey)
    requires p.wanted.Keys <= db.notes.Keys && k in db.rules
    ensures var r := Reconcile(db, p, now).rules;
            && k in r && (k.note !in p.wanted ==> r[k] == db.rules[k])
            && (k.note in p.wanted ==> (r[k].enabled <==> k.offset in p.wanted[k.note])
                                       && (!r[k].enabled ==> r[k].cycle == db.rules[k].cycle))
  {
    hide Reconcile;
    RuleRow(db, p, now, k);
  }
}

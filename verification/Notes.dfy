/** backend/app/domain/notes.py: the reconciliation loop, run against its row-by-row
    specification. */
module Notes {
  import opened Prelude
  import opened Storage
  import opened Reconciliation

  /** Rule `k`, once the rules in `scope` have been reconciled and the others have not. */
  ghost predicate RuleSoFar(db0: Db, db: Db, p: Plan, scope: set<RuleKey>, k: RuleKey) {
    && (k in db.rules <==> k in db0.rules || (IsNewRule(db0, p, k) && k in scope))
    && (k in db.rules ==> db.rules[k] == if k in scope then RuleAfter(db0, p, k) else db0.rules[k])
  }

  ghost predicate DeliverySoFar(db0: Db, db: Db, p: Plan, now: Time, scope: set<RuleKey>, dk: DeliveryKey)
    requires p.wanted.Keys <= db0.notes.Keys
  {
    && (dk in db.deliveries <==> dk in db0.deliveries || (IsNewCycle(db0, p, dk) && dk.rule in scope))
    && (dk in db.deliveries ==>
          db.deliveries[dk] == if dk.rule in scope then DeliveryAfter(db0, p, now, dk) else db0.deliveries[dk])
  }

  ghost predicate SoFar(db0: Db, db: Db, p: Plan, now: Time, scope: set<RuleKey>)
    requires p.wanted.Keys <= db0.notes.Keys
  {
    && db == db0.(rules := db.rules, deliveries := db.deliveries)
    && (forall k: RuleKey :: RuleSoFar(db0, db, p, scope, k))
    && (forall dk: DeliveryKey :: DeliverySoFar(db0, db, p, now, scope, dk))
  }

  lemma NoRules(db: Db, p: Plan, now: Time)
    requires p.wanted.Keys <= db.notes.Keys
    ensures SoFar(db, db, p, now, {})
  {
  }

  lemma AllRules(db0: Db, db: Db, p: Plan, now: Time, scope: set<RuleKey>)
    requires p.wanted.Keys <= db0.notes.Keys && SoFar(db0, db, p, now, scope)
    requires forall k: RuleKey :: k.note in p.wanted && (k in db0.rules || IsNewRule(db0, p, k)) ==> k in scope
    requires forall dk :: dk in db0.deliveries ==> dk.rule in db0.rules
    ensures db == Reconcile(db0, p, now)
  {
    hide Reconcile;
    var db' := Reconcile(db0, p, now);
    forall k: RuleKey
      ensures k in db.rules <==> k in db'.rules
      ensures k in db.rules ==> db.rules[k] == db'.rules[k]
    {
      assert RuleSoFar(db0, db, p, scope, k);
      RuleRow(db0, p, now, k);
    }
    assert db.rules == db'.rules;
    forall dk: DeliveryKey
      ensures dk in db.deliveries <==> dk in db'.deliveries
      ensures dk in db.deliveries ==> db.deliveries[dk] == db'.deliveries[dk]
    {
      AllRows(db0, db, p, now, scope, dk);
    }
    assert db.deliveries == db'.deliveries;
  }

  lemma AllRows(db0: Db, db: Db, p: Plan, now: Time, scope: set<RuleKey>, dk: DeliveryKey)
    requires p.wanted.Keys <= db0.notes.Keys && DeliverySoFar(db0, db, p, now, scope, dk)
    requires dk.rule.note in p.wanted && (dk.rule in db0.rules || IsNewRule(db0, p, dk.rule)) ==> dk.rule in scope
    requires dk in db0.deliveries ==> dk.rule in db0.rules
    ensures var db' := Reconcile(db0, p, now);
            && (dk in db.deliveries <==> dk in db'.deliveries)
            && (dk in db.deliveries ==> db.deliveries[dk] == db'.deliveries[dk])
  {
    hide Reconcile, NewDelivery, Refresh, CancelOpen;
    DeliveryRow(db0, p, now, dk);
  }

  /** One more rule: only rows of `k` changed, and those are as specified. */
  lemma OneMoreRule(db0: Db, a: Db, b: Db, p: Plan, now: Time, scope: set<RuleKey>, k: RuleKey)
    requires p.wanted.Keys <= db0.notes.Keys && SoFar(db0, a, p, now, scope) && k !in scope
    requires b == a.(rules := b.rules, deliveries := b.deliveries)
    requires b.rules == a.rules[k := RuleAfter(db0, p, k)] && (k in db0.rules || IsNewRule(db0, p, k))
    requires forall dk: DeliveryKey :: dk.rule == k ==>
               DeliverySoFar(db0, b, p, now, scope + {k}, dk)
    requires forall dk: DeliveryKey :: dk.rule != k ==>
               (dk in b.deliveries <==> dk in a.deliveries)
               && (dk in b.deliveries ==> b.deliveries[dk] == a.deliveries[dk])
    ensures SoFar(db0, b, p, now, scope + {k})
  {
    forall k': RuleKey ensures RuleSoFar(db0, b, p, scope + {k}, k') {
      assert RuleSoFar(db0, a, p, scope, k');
    }
    forall dk: DeliveryKey ensures DeliverySoFar(db0, b, p, now, scope + {k}, dk) {
      assert DeliverySoFar(db0, a, p, now, scope, dk);
    }
  }

  function OneNote(n: NoteId, offsets: set<int>, moved: bool): Plan {
    Plan(map[n := offsets], if moved then {n} else {})
  }

  // lines 144-227
  method ReconcileReminders(session: Session, note: NoteId, offsets: set<int>, scheduleChanged: bool, now: Time)
    requires note in session.db.notes && RulesOwned(session.db) && Numbered(session.db)
    modifies session`db
    ensures session.db == Reconcile(old(session.db), OneNote(note, offsets, scheduleChanged), now)
  {
    ghost var db0 := session.db;
    ghost var p := OneNote(note, offsets, scheduleChanged);
    ghost var mine := set k | k in db0.rules && k.note == note;
    var rules := Listing(set k | k in session.db.rules && k.note == note);
    ExistingRules(session, note, offsets, scheduleChanged, now, rules, db0, mine);
    var missing := Listing(set o | o in offsets && RuleKey(note, o) !in rules);
    forall o ensures RuleKey(note, o) in rules <==> RuleKey(note, o) in mine {
      assert RuleKey(note, o) in Elements(rules) <==> RuleKey(note, o) in mine;
    }
    assert Elements(missing) == set o | o in p.wanted[note] && RuleKey(note, o) !in mine;
    AddMissing(session, note, missing, now, db0, p, mine);
  }

  // for rule in rules
  method ExistingRules(session: Session, note: NoteId, offsets: set<int>, scheduleChanged: bool, now: Time,
                       rules: seq<RuleKey>, ghost db0: Db, ghost mine: set<RuleKey>)
    requires note in db0.notes && RulesOwned(db0) && Numbered(db0) && session.db == db0
    requires Distinct(rules) && Elements(rules) == mine
    requires mine == (set k | k in db0.rules && k.note == note)
    modifies session`db
    ensures SoFar(db0, session.db, OneNote(note, offsets, scheduleChanged), now, mine)
  {
    ghost var p := OneNote(note, offsets, scheduleChanged);
    ghost var done: set<RuleKey> := {};
    NoRules(db0, p, now);
    for i := 0 to |rules|
      invariant done == Elements(rules[..i])
      invariant SoFar(db0, session.db, p, now, done)
    {
      var k := rules[i];
      assert k in Elements(rules);
      ReconcileRule(session, k, offsets, scheduleChanged, now, db0, p, done);
      done := done + {k};
      assert rules[..i + 1] == rules[..i] + [k];
    }
    assert rules[..|rules|] == rules;
  }

  // for offset in sorted(wanted - by_offset.keys())
  method AddMissing(session: Session, note: NoteId, missing: seq<int>, now: Time,
                    ghost db0: Db, ghost p: Plan, ghost mine: set<RuleKey>)
    requires note in db0.notes && p.wanted.Keys == {note} && RulesOwned(db0) && Numbered(db0)
    requires mine == (set k | k in db0.rules && k.note == note)
    requires Distinct(missing)
    requires Elements(missing) == (set o | o in p.wanted[note] && RuleKey(note, o) !in mine)
    requires SoFar(db0, session.db, p, now, mine)
    modifies session`db
    ensures session.db == Reconcile(db0, p, now)
  {
    ghost var done := mine;
    for i := 0 to |missing|
      invariant done == mine + (set o | o in missing[..i] :: RuleKey(note, o))
      invariant SoFar(db0, session.db, p, now, done)
    {
      assert missing[i] in Elements(missing);
      var k := RuleKey(note, missing[i]);
      ghost var a := session.db;
      AddDelivery(session, k, Rule(true, 1), now);
      NewRuleWritten(db0, a, session.db, p, now, done, k);
      done := done + {k};
      assert missing[..i + 1] == missing[..i] + [missing[i]];
    }
    assert missing[..|missing|] == missing;
    forall k: RuleKey | k.note in p.wanted && (k in db0.rules || IsNewRule(db0, p, k)) ensures k in done {
      if k !in db0.rules { assert k.offset in Elements(missing); }
    }
    AllRules(db0, session.db, p, now, done);
  }

  lemma NewRuleWritten(db0: Db, a: Db, b: Db, p: Plan, now: Time, scope: set<RuleKey>, k: RuleKey)
    requires p.wanted.Keys <= db0.notes.Keys && SoFar(db0, a, p, now, scope) && k !in scope
    requires IsNewRule(db0, p, k) && Numbered(db0)
    requires b == a.(rules := a.rules[k := Rule(true, 1)],
                     deliveries := a.deliveries[DeliveryKey(k, 1) := NewDelivery(db0.notes[k.note], k.offset, now)])
    ensures SoFar(db0, b, p, now, scope + {k})
  {
    forall dk: DeliveryKey | dk.rule == k ensures DeliverySoFar(db0, b, p, now, scope + {k}, dk) {
      assert DeliverySoFar(db0, a, p, now, scope, dk);
    }
    OneMoreRule(db0, a, b, p, now, scope, k);
  }

  lemma OldRuleWritten(db0: Db, a: Db, b: Db, p: Plan, now: Time, scope: set<RuleKey>, k: RuleKey)
    requires p.wanted.Keys <= db0.notes.Keys && SoFar(db0, a, p, now, scope) && k !in scope
    requires RulesOwned(db0) && Numbered(db0) && k in db0.rules && k.note in p.wanted
    requires var cur := CurrentKey(db0, k);
      && b == a.(rules := b.rules, deliveries := b.deliveries)
      && b.rules == a.rules[k := RuleAfter(db0, p, k)]
      && cur in db0.deliveries
      && b.deliveries == (if Recycles(db0, p, k)
          then a.deliveries[cur := CancelOpen(db0.deliveries[cur], now)][DeliveryKey(k, cur.cycle + 1)
                             := NewDelivery(db0.notes[k.note], k.offset, now)]
          else a.deliveries[cur := DeliveryAfter(db0, p, now, cur)])
    ensures SoFar(db0, b, p, now, scope + {k})
  {
    forall dk: DeliveryKey | dk.rule == k ensures DeliverySoFar(db0, b, p, now, scope + {k}, dk) {
      assert DeliverySoFar(db0, a, p, now, scope, dk);
    }
    OneMoreRule(db0, a, b, p, now, scope, k);
  }

  // The write of a rule followed by _new_delivery for its current cycle.
  method AddDelivery(session: Session, k: RuleKey, rule: Rule, now: Time)
    requires k.note in session.db.notes
    modifies session`db
    ensures session.db == old(session.db).(
              rules := old(session.db).rules[k := rule],
              deliveries := old(session.db).deliveries[
                DeliveryKey(k, rule.cycle) := NewDelivery(old(session.db).notes[k.note], k.offset, now)])
    ensures BeginsAs(session.db.deliveries[DeliveryKey(k, rule.cycle)], old(session.db).notes[k.note], k.offset, now)
  {
    var note := session.db.notes[k.note];
    var deadline := DueAt(note.startsAt, k.offset);
    var state;
    if !note.active || note.deletedAt.Some? || note.supersededAt.Some? || note.purgedAt.Some? {
      state := DeliveryState.Cancelled;
    } else if deadline <= now {
      state := Missed;
    } else {
      state := Pending;
    }
    var resultAt := if state in {DeliveryState.Cancelled, Missed} then Some(now) else None;
    var delivery := Delivery(deadline, state, None, None, None, None, None, resultAt, None);
    session.db := session.db.(rules := session.db.rules[k := rule],
                              deliveries := session.db.deliveries[DeliveryKey(k, rule.cycle) := delivery]);
  }

  // One iteration of `for rule in rules`.
  method ReconcileRule(session: Session, k: RuleKey, offsets: set<int>, scheduleChanged: bool, now: Time,
                       ghost db0: Db, ghost p: Plan, ghost done: set<RuleKey>)
    requires k.note in db0.notes && p == OneNote(k.note, offsets, scheduleChanged) && k in db0.rules
    requires RulesOwned(db0) && Numbered(db0)
    requires SoFar(db0, session.db, p, now, done) && k !in done
    modifies session`db
    ensures SoFar(db0, session.db, p, now, done + {k})
  {
    ghost var a := session.db;
    assert RuleSoFar(db0, a, p, done, k);
    var rule := session.db.rules[k];
    var cur := DeliveryKey(k, rule.cycle);
    assert cur in db0.deliveries && DeliverySoFar(db0, a, p, now, done, cur);
    var current := session.db.deliveries[cur];
    if k.offset !in offsets {
      current := Cancelled(current, now);
      session.db := session.db.(rules := session.db.rules[k := rule.(enabled := false)],
                                deliveries := session.db.deliveries[cur := current]);
    } else if scheduleChanged || !rule.enabled {
      current := Cancelled(current, now);
      session.db := session.db.(deliveries := session.db.deliveries[cur := current]);
      AddDelivery(session, k, Rule(true, rule.cycle + 1), now);
    } else {
      current := Refreshed(current, session.db.notes[k.note], k.offset, now);
      session.db := session.db.(rules := session.db.rules[k := rule.(enabled := true)],
                                deliveries := session.db.deliveries[cur := current]);
    }
    OldRuleWritten(db0, a, session.db, p, now, done, k);
  }

  method Refreshed(d: Delivery, note: Note, offset: int, now: Time) returns (d': Delivery)
    ensures d' == Refresh(d, note, offset, now)
  {
    d' := d;
    if d.state in {Pending, Claimed, DeliveryState.Cancelled} {
      var deadline := DueAt(note.startsAt, offset);
      if note.active && note.deletedAt.None? && note.supersededAt.None? && note.purgedAt.None? && deadline > now {
        d' := d'.(state := Pending, claimToken := None, claimExpiresAt := None, resultAt := None);
      } else {
        d' := Cancelled(d, now);
      }
    }
  }

  method Cancelled(d: Delivery, now: Time) returns (d': Delivery)
    ensures d' == CancelOpen(d, now)
  {
    d' := d;
    if d.state in {Pending, Claimed} {
      d' := d'.(state := DeliveryState.Cancelled, claimToken := None, claimExpiresAt := None, resultAt := Some(now));
    }
  }
}

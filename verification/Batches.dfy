/** Several note rows written and reconciled one after another: the loop that the series
    handlers run, and the single plan it amounts to. */
module Batches {
  import opened Storage
  import opened Reconciliation
  import opened Invariants
  import opened Store
  import opened Notes

  /** The rows to write and how to reconcile each of them. */
  datatype Batch = Batch(rows: map<NoteId, Note>, plan: Plan)

  ghost predicate Proper(b: Batch) {
    b.plan.wanted.Keys == b.rows.Keys && b.plan.moved <= b.rows.Keys
  }

  ghost function Only(b: Batch, done: set<NoteId>): Batch
    requires Proper(b)
  {
    Batch(map n | n in b.rows && n in done :: b.rows[n],
          Plan(map n | n in b.rows && n in done :: b.plan.wanted[n], b.plan.moved * done))
  }

  function Applied(db: Db, b: Batch, now: Time): Db
    requires b.plan.wanted.Keys <= db.notes.Keys + b.rows.Keys
  {
    Reconcile(db.(notes := db.notes + b.rows), b.plan, now)
  }

  lemma AppliedNone(db: Db, b: Batch, now: Time)
    requires Proper(b)
    ensures Applied(db, Only(b, {}), now) == db
  {
    assert db.notes + Only(b, {}).rows == db.notes;
    Unchanged(db, Only(b, {}).plan, now);
  }

  lemma AppliedAll(db: Db, b: Batch, done: set<NoteId>, now: Time)
    requires Proper(b) && done == b.rows.Keys
    ensures Applied(db, Only(b, done), now) == Applied(db, b, now)
  {
    assert Only(b, done).rows == b.rows;
    assert Only(b, done).plan.wanted == b.plan.wanted;
    assert Only(b, done).plan.moved == b.plan.moved;
  }

  lemma OnlyGrows(b: Batch, done: set<NoteId>, n: NoteId)
    requires Proper(b) && n in b.rows && n !in done
    ensures Only(b, done + {n}).rows == Only(b, done).rows[n := b.rows[n]]
    ensures Only(b, done + {n}).plan == Both(Only(b, done).plan, OneNote(n, b.plan.wanted[n], n in b.plan.moved))
  {
  }

  /** One more row: what the loop does to the store is one more row of the batch. */
  lemma AppliedOne(db: Db, b: Batch, done: set<NoteId>, n: NoteId, now: Time)
    requires Proper(b) && n in b.rows && n !in done
    ensures var a := Applied(db, Only(b, done), now);
            && (n in a.notes <==> n in db.notes) && (n in db.notes ==> a.notes[n] == db.notes[n])
            && EnabledOffsets(a, n) == EnabledOffsets(db, n)
            && Reconcile(a.(notes := a.notes[n := b.rows[n]]), OneNote(n, b.plan.wanted[n], n in b.plan.moved), now)
               == Applied(db, Only(b, done + {n}), now)
  {
    hide Reconcile, EnabledOffsets, Both, OneNote;
    var some := Only(b, done);
    RulesLocal(db.(notes := db.notes + some.rows), some.plan, now);
    SameOffsets(db, Applied(db, some, now), n);
    OnlyGrows(b, done, n);
    OneAfter(db, some, n, b.rows[n], b.plan.wanted[n], n in b.plan.moved, now);
    AppliedBy(db, Only(b, done + {n}), now);
  }

  lemma AppliedBy(db: Db, b: Batch, now: Time)
    requires Proper(b)
    ensures Applied(db, b, now) == Reconcile(db.(notes := db.notes + b.rows), b.plan, now)
  {
  }

  lemma OneAfter(db: Db, some: Batch, n: NoteId, row: Note, offsets: set<int>, moved: bool, now: Time)
    requires Proper(some) && n !in some.rows
    ensures var a := Applied(db, some, now);
            Reconcile(a.(notes := a.notes[n := row]), OneNote(n, offsets, moved), now)
            == Reconcile(db.(notes := db.notes + some.rows[n := row]), Both(some.plan, OneNote(n, offsets, moved)), now)
  {
    hide Reconcile, Both;
    var start := db.(notes := db.notes + some.rows);
    var after := db.notes + some.rows[n := row];
    assert after == start.notes[n := row];
    ReconcileInTurn(start, after, some.plan, OneNote(n, offsets, moved), now);
  }

  lemma SameOffsets(db: Db, db': Db, n: NoteId)
    requires forall k: RuleKey :: k.note == n ==>
               (k in db'.rules <==> k in db.rules) && (k in db.rules ==> db'.rules[k] == db.rules[k])
    ensures EnabledOffsets(db', n) == EnabledOffsets(db, n)
  {
  }

  lemma AppliedNumbered(db: Db, b: Batch, now: Time)
    requires Proper(b) && RulesOwned(db) && Numbered(db)
    ensures RulesOwned(Applied(db, b, now)) && Numbered(Applied(db, b, now))
  {
    hide Reconcile;
    var start := db.(notes := db.notes + b.rows);
    assert RulesOwned(start) && Numbered(start);
    KeepsNumbered(start, b.plan, now);
  }

  /** The store in the middle of such a loop: the rows in `done` have been written and
      reconciled, and no other table but the tags has been touched. */
  ghost predicate Underway(db0: Db, db: Db, b: Batch, done: set<NoteId>, now: Time) {
    && Proper(b)
    && db == Applied(db0, Only(b, done), now).(noteTags := db.noteTags)
  }

  lemma Begin(db: Db, b: Batch, now: Time)
    requires Proper(b)
    ensures Underway(db, db, b, {}, now)
  {
    AppliedNone(db, b, now);
  }

  lemma Finish(db0: Db, db: Db, b: Batch, done: set<NoteId>, now: Time)
    requires Underway(db0, db, b, done, now) && done == b.rows.Keys
    ensures Proper(b) && db == Applied(db0, b, now).(noteTags := db.noteTags)
  {
    hide Reconcile;
    AppliedAll(db0, b, done, now);
  }

  /** A note the loop has not reached reads as it did at the start. */
  lemma NotReached(db0: Db, db: Db, b: Batch, done: set<NoteId>, n: NoteId, now: Time)
    requires Underway(db0, db, b, done, now) && n in b.rows && n !in done
    ensures (n in db.notes <==> n in db0.notes) && (n in db0.notes ==> db.notes[n] == db0.notes[n])
    ensures EnabledOffsets(db, n) == EnabledOffsets(db0, n)
  {
    hide Applied, EnabledOffsets, Reconcile;
    AppliedOne(db0, b, done, n, now);
    SameOffsets(Applied(db0, Only(b, done), now), db, n);
  }

  // One turn of such a loop: write the row, reconcile it.
  method WriteAndReconcile(session: Session, n: NoteId, row: Note, offsets: set<int>, moved: bool, now: Time,
                           ghost db0: Db, ghost b: Batch, ghost done: set<NoteId>)
    requires Underway(db0, session.db, b, done, now)
    requires RulesOwned(db0) && Numbered(db0) && n in b.rows && n !in done
    requires row == b.rows[n] && offsets == b.plan.wanted[n] && (moved <==> n in b.plan.moved)
    modifies session`db
    ensures Underway(db0, session.db, b, done + {n}, now) && session.db.noteTags == old(session.db).noteTags
  {
    hide Reconcile, RulesOwned, Numbered, Applied;
    AppliedNumbered(db0, Only(b, done), now);
    var before := session.db;
    session.db := session.db.(notes := session.db.notes[n := row]);
    ghost var a := Applied(db0, Only(b, done), now);
    StillNumbered(a, session.db);
    ReconcileReminders(session, n, offsets, moved, now);
    AppliedOne(db0, b, done, n, now);
    SameInputs(a.(notes := a.notes[n := row]), before.(notes := before.notes[n := row]), OneNote(n, offsets, moved),
               now);
  }

  /** The tables hung on notes changed for notes in `touched` only, and exceptions only went. */
  ghost predicate Confined(a: Db, c: Db, touched: set<NoteId>) {
    && a.notes.Keys <= c.notes.Keys
    && (forall n :: n in c.notes && n !in touched ==> SameNote(a, c, n))
    && (forall t :: t in c.noteTags && t !in a.noteTags ==> t.note in touched)
    && c.notifications == a.notifications
    && (forall k :: k in c.exceptions ==> k in a.exceptions && c.exceptions[k] == a.exceptions[k])
  }

  /** A batch over unpurged notes leaves everything purged as it was. */
  lemma BatchIsFrozen(a: Db, c: Db, b: Batch, now: Time)
    requires Proper(b) && Confined(a, c, b.rows.Keys) && c.deliveries == Applied(a, b, now).deliveries
    requires forall n :: n in b.rows ==> !Purged(a, n) && !Purged(c, n)
    ensures NotesFrozen(a, c)
  {
    hide Reconcile;
    ReconcileLocal(a.(notes := a.notes + b.rows), b.plan, now);
    forall n | n in c.notes && (Purged(a, n) || Purged(c, n)) ensures SameNote(a, c, n) && n !in b.rows {
    }
  }
}

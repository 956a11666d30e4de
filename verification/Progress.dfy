/** What no transaction ever undoes. `Advances(a, b)` relates the store before and after
    any stretch of a run: authorized deliveries stay authorized, recorded results stand,
    cycle numbers only grow, purged rows are frozen and closed trash actions stay closed. */
module Progress {
  import opened Prelude
  import opened Storage

  predicate SameOrErased<T(==)>(before: Option<T>, after: Option<T>) {
    after == before || after.None?
  }

  predicate DeliveryAdvances(d: Delivery, d': Delivery) {
    && d'.dueAt == d.dueAt
    && (Attempted(d) ==>
          Attempted(d') && d'.claimToken == d.claimToken && d'.authorizedAt == d.authorizedAt
          && SameOrErased(d.recipient, d'.recipient) && SameOrErased(d.content, d'.content))
    && (Finished(d) ==> d'.state == d.state && d'.resultAt == d.resultAt && d'.errorCode == d.errorCode)
    && (d.state.Missed? ==> d' == d)
  }

  ghost predicate DeliveriesAdvance(a: Db, b: Db) {
    forall dk :: dk in a.deliveries ==>
      dk in b.deliveries && DeliveryAdvances(a.deliveries[dk], b.deliveries[dk])
  }

  ghost predicate RulesAdvance(a: Db, b: Db) {
    forall k :: k in a.rules ==> k in b.rules && a.rules[k].cycle <= b.rules[k].cycle
  }

  predicate NoteAdvances(n: Note, n': Note) {
    n.purgedAt.Some? ==> n' == n
  }

  ghost predicate NotesAdvance(a: Db, b: Db) {
    forall n :: n in a.notes ==> n in b.notes && NoteAdvances(a.notes[n], b.notes[n])
  }

  predicate SeriesRowAdvances(s: Series, s': Series) {
    && s'.lineage == s.lineage && s'.predecessor == s.predecessor
    && (s.splitBoundary.Some? ==> s'.splitBoundary == s.splitBoundary)
    && (s.purgedAt.Some? ==> s' == s)
  }

  ghost predicate SeriesAdvances(a: Db, b: Db) {
    forall s :: s in a.series ==> s in b.series && SeriesRowAdvances(a.series[s], b.series[s])
  }

  /** No note points at the action any more. */
  ghost predicate Closed(db: Db, a: ActionId) {
    forall n :: n in db.notes ==> db.notes[n].action != Some(a)
  }

  ghost predicate ActionAdvances(a: Db, b: Db, x: ActionId)
    requires x in a.actions
  {
    && x in b.actions && b.actions[x] == a.actions[x]
    && (forall m: Membership :: m.action == x ==> (m in a.members <==> m in b.members))
    && (Closed(a, x) ==> Closed(b, x))
  }

  ghost predicate ActionsAdvance(a: Db, b: Db) {
    forall x :: x in a.actions ==> ActionAdvances(a, b, x)
  }

  ghost predicate Advances(a: Db, b: Db) {
    && DeliveriesAdvance(a, b) && RulesAdvance(a, b) && NotesAdvance(a, b)
    && SeriesAdvances(a, b) && ActionsAdvance(a, b) && a.outbox <= b.outbox
  }

  lemma AdvancesReflexive(a: Db)
    ensures Advances(a, a)
  {
  }

  lemma AdvancesTransitive(a: Db, b: Db, c: Db)
    requires Advances(a, b) && Advances(b, c)
    ensures Advances(a, c)
  {
    assert DeliveriesAdvance(a, c);
    assert NotesAdvance(a, c);
    assert SeriesAdvances(a, c);
    forall x | x in a.actions ensures ActionAdvances(a, c, x) {
      assert ActionAdvances(a, b, x) && ActionAdvances(b, c, x);
    }
  }
}

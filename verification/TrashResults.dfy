/** What trashing a portion and restoring an action mean for each note, field by field. */
module TrashResults {
  import opened Prelude
  import opened Storage
  import opened Reconciliation
  import opened Invariants
  import opened Api
  import opened TrashActions

  // ---------- trashing a portion ----------

  /** An occurrence of the series that was neither replaced nor redacted. */
  predicate Standing(n: Note, s: SeriesId) {
    n.seriesId == Some(s) && n.recurrenceKey.Some? && n.supersededAt.None?
  }

  /** Where the portion begins: the occurrence asked for, or the first one there is. */
  ghost predicate BeginsAt(db: Db, s: SeriesId, requested: Option<Time>, boundary: Time) {
    && (exists n :: n in db.notes && Standing(db.notes[n], s) && db.notes[n].recurrenceKey == Some(boundary))
    && (requested.Some? ==> boundary == requested.value)
    && (requested.None? ==>
          forall n :: n in db.notes && Standing(db.notes[n], s) ==> db.notes[n].recurrenceKey.value >= boundary)
  }

  /** The notes that a portion takes: occurrences from the boundary on that are not in the trash. */
  predicate InPortion(n: Note, s: SeriesId, boundary: Time) {
    Standing(n, s) && n.recurrenceKey.value >= boundary && n.deletedAt.None? && n.purgedAt.None?
  }

  /** Every occurrence from the boundary on is in the trash now: those that were not yet went
      there under the new action, and every other note is as it was. */
  ghost predicate TakenFrom(db: Db, after: Db, s: SeriesId, boundary: Time, a: ActionId, now: Time) {
    && after.notes.Keys == db.notes.Keys
    && (forall n :: n in db.notes ==>
          after.notes[n] == if InPortion(db.notes[n], s, boundary)
                            then db.notes[n].(deletedAt := Some(now), action := Some(a),
                                              version := db.notes[n].version + 1)
                            else db.notes[n])
    && (forall n :: n in after.notes && Standing(after.notes[n], s)
                    && after.notes[n].recurrenceKey.value >= boundary ==>
          after.notes[n].deletedAt.Some? || after.notes[n].purgedAt.Some?)
    && (forall m: Membership :: m in after.members <==>
          m in db.members || (m.action == a && m.note in db.notes && InPortion(db.notes[m.note], s, boundary)))
    && after.actions == db.actions[a := Action(s, boundary, now, true)]
    && s in db.series && s in after.series
    && after.series == db.series[s := db.series[s].(version := db.series[s].version + 1)]
    && after.outbox == db.outbox + [Event(SeriesUpdated, SeriesEntity(s), after.series[s].version)]
  }

  lemma PortionTaken(db: Db, s: SeriesId, boundary: Time, a: ActionId, now: Time)
    requires s in db.series
    ensures TakenFrom(db, Trashed(db, s, boundary, a, now), s, boundary, a, now)
  {
    hide Reconcile, KeepOffsets;
    var after := Trashed(db, s, boundary, a, now);
    assert after.notes == TrashedNotes(db, Portion(db, s, boundary), a, now);
    forall m: Membership ensures m in Enrolments(a, Portion(db, s, boundary)) <==>
        m.action == a && m.note in db.notes && InPortion(db.notes[m.note], s, boundary) {
    }
  }

  lemma BoundaryIs(db: Db, s: SeriesId, requested: Option<Time>, boundary: Time)
    ensures IsBoundary(db, s, requested, boundary) <==> BeginsAt(db, s, requested, boundary)
  {
    forall key ensures key in SeriesKeys(db, s) <==>
        exists n :: n in db.notes && Standing(db.notes[n], s) && db.notes[n].recurrenceKey == Some(key) {
    }
    if BeginsAt(db, s, requested, boundary) {
      forall key | key in SeriesKeys(db, s) && requested.None? ensures boundary <= key {
        var n :| n in db.notes && Standing(db.notes[n], s) && db.notes[n].recurrenceKey == Some(key);
      }
    }
    if IsBoundary(db, s, requested, boundary) && requested.None? {
      forall n | n in db.notes && Standing(db.notes[n], s) ensures db.notes[n].recurrenceKey.value >= boundary {
        assert db.notes[n].recurrenceKey.value in SeriesKeys(db, s);
      }
    }
  }

  /** The request that is accepted: it names the current version of an unpurged series, and there
      is something to trash from where the portion begins. */
  ghost predicate Trashable(db: Db, s: SeriesId, version: int, requested: Option<Time>) {
    && s in db.series && db.series[s].purgedAt.None? && db.series[s].version == version
    && exists boundary :: BeginsAt(db, s, requested, boundary) && SomethingFrom(db, s, boundary)
  }

  predicate SomethingFrom(db: Db, s: SeriesId, boundary: Time) {
    exists n :: n in db.notes && InPortion(db.notes[n], s, boundary)
  }

  lemma PortionSome(db: Db, s: SeriesId, boundary: Time)
    ensures Portion(db, s, boundary) != {} <==> SomethingFrom(db, s, boundary)
  {
    NonEmptyOr(Portion(db, s, boundary));
    if n: NoteId :| n in db.notes && InPortion(db.notes[n], s, boundary) { assert n in Portion(db, s, boundary); }
  }

  lemma NonEmptyOr(ids: set<NoteId>)
    ensures ids == {} || exists n :: n in ids
  {
    if ids != {} { NonEmpty(ids); }
  }

  lemma OneBoundary(db: Db, s: SeriesId, requested: Option<Time>, b: Time, c: Time)
    requires BeginsAt(db, s, requested, b) && BeginsAt(db, s, requested, c)
    ensures b == c
  {
  }

  /** What the handler answers to a request to trash a portion, and what it leaves. */
  lemma TrashMeans(db: Db, s: SeriesId, version: int, requested: Option<Time>, a: ActionId, now: Time,
                   r: Result<(), ApiError>, after: Db)
    requires TrashOutcome(db, s, version, requested, a, now, r, after)
    ensures r.Success? <==> Trashable(db, s, version, requested)
    ensures r.Success? ==>
              exists boundary :: BeginsAt(db, s, requested, boundary) && TakenFrom(db, after, s, boundary, a, now)
    ensures r.Failure? ==> after == db
  {
    hide Trashed, Portion, SeriesKeys, BeginsAt, TakenFrom, IsBoundary, SomethingFrom, Standing, InPortion;
    if s in db.series && db.series[s].purgedAt.None? && db.series[s].version == version {
      if boundary :| IsBoundary(db, s, requested, boundary) && BoundaryOutcome(db, s, boundary, a, now, r, after) {
        BoundaryIs(db, s, requested, boundary);
        PortionSome(db, s, boundary);
        PortionTaken(db, s, boundary, a, now);
        forall b | BeginsAt(db, s, requested, b) ensures b == boundary { OneBoundary(db, s, requested, b, boundary); }
      } else {
        forall b ensures !BeginsAt(db, s, requested, b) { NoBoundary(db, s, requested, b); }
      }
    }
  }

  lemma NoBoundary(db: Db, s: SeriesId, requested: Option<Time>, b: Time)
    requires (requested.None? && SeriesKeys(db, s) == {}) || (requested.Some? && requested.value !in SeriesKeys(db, s))
    ensures !BeginsAt(db, s, requested, b)
  {
    hide SeriesKeys;
    BoundaryIs(db, s, requested, b);
  }

  // ---------- restoring an action ----------

  predicate IsMember(db: Db, a: ActionId, n: NoteId) {
    Membership(a, n) in db.members && n in db.notes
  }

  /** The request that is accepted: it names the current version of the action's unpurged series,
      the action still holds notes and is retained, and a note named with it is a member at the
      version named. */
  ghost predicate RestoreAccepted(db: Db, a: ActionId, expected: int, selected: Option<Selected>, now: Time) {
    && a in db.actions && db.actions[a].series in db.series && db.series[db.actions[a].series].purgedAt.None?
    && db.series[db.actions[a].series].version == expected
    && (exists n :: n in db.notes && db.notes[n].action == Some(a))
    && now < db.actions[a].trashedAt + RETENTION
    && (selected.Some? ==> IsMember(db, a, selected.value.note)
                           && db.notes[selected.value.note].version == selected.value.version)
  }

  /** Every member is out of the trash and out of the action, and every other note is as it was. */
  ghost predicate GivenBack(db: Db, after: Db, a: ActionId) {
    && after.notes.Keys == db.notes.Keys
    && (forall n :: n in db.notes ==>
          after.notes[n] == if IsMember(db, a, n)
                            then db.notes[n].(deletedAt := None, action := None, version := db.notes[n].version + 1)
                            else db.notes[n])
    && a in db.actions && db.actions[a].series in db.series
    && after.series == db.series[db.actions[a].series :=
                         db.series[db.actions[a].series].(version := db.series[db.actions[a].series].version + 1)]
    && after.actions == db.actions && after.members == db.members
    && after.outbox == db.outbox + [Event(SeriesUpdated, SeriesEntity(db.actions[a].series),
                                          db.series[db.actions[a].series].version + 1)]
  }

  lemma RestoreMeans(db: Db, a: ActionId, expected: int, selected: Option<Selected>, now: Time)
    requires TrashInv(db)
    ensures RestoreAction(db, a, expected, selected, now).Success? <==> RestoreAccepted(db, a, expected, selected, now)
    ensures var r := RestoreAction(db, a, expected, selected, now); r.Success? ==> GivenBack(db, r.value, a)
  {
    hide TrashInv, Restored;
    NoBreach(db, a, expected, selected, now);
    Members(db, a);
    if a in db.actions {
      var current := set n | n in MembersOf(db, a) && db.notes[n].action == Some(a);
      forall n ensures n in current <==> n in db.notes && db.notes[n].action == Some(a) { HeldIsMember(db, a, n); }
      NonEmptyOr(current);
      if db.actions[a].series in db.series { RestoredNoteRows(db, a, now); }
    }
  }

  lemma HeldIsMember(db: Db, a: ActionId, n: NoteId)
    requires TrashInv(db)
    ensures n in db.notes && db.notes[n].action == Some(a) ==> n in MembersOf(db, a)
  {
    if n in db.notes && db.notes[n].action == Some(a) {
      assert PointsHome(db, n);
      var m := Membership(a, n);
      assert m in db.members && m.note == n;
    }
  }

  lemma Members(db: Db, a: ActionId)
    ensures forall n :: n in MembersOf(db, a) <==> IsMember(db, a, n)
  {
    forall n ensures n in MembersOf(db, a) <==> IsMember(db, a, n) {
      if IsMember(db, a, n) { var m := Membership(a, n); assert m in db.members && m.note == n; }
    }
  }

  lemma RestoredNoteRows(db: Db, a: ActionId, now: Time)
    requires a in db.actions && db.actions[a].series in db.series
    ensures GivenBack(db, Restored(db, a, now), a)
  {
    hide Reconcile, KeepOffsets, MembersOf;
    Members(db, a);
  }
}

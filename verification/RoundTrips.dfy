/** Trashing a series portion and restoring it: what comes back, by which route, in which
    order. */
module RoundTrips {
  import opened Prelude
  import opened Storage
  import opened Reconciliation
  import opened Progress
  import opened Invariants
  import opened Lineage
  import opened Store
  import opened Api
  import opened TrashActions
  import H = NoteHandlers

  /** A deadline that lay open when the portion was trashed and has passed at the restore. */
  predicate Lapsed(d: Delivery, restoredAt: Time) {
    Open(d) && d.dueAt <= restoredAt
  }

  /** Trash cancels the open delivery of a note; a restore before its deadline reopens it. */
  lemma ThereAndBack(d: Delivery, n: Note, trashed: Note, restored: Note, offset: int, t1: Time, t2: Time)
    requires Shape(d) && d.dueAt == DueAt(n.startsAt, offset) && t1 <= t2
    requires trashed.deletedAt.Some? && trashed.startsAt == n.startsAt
    requires restored.startsAt == n.startsAt && Live(restored) == Live(n)
    requires Open(d) ==> Live(n)
    requires (d.state.Claimed? || (d.state.Cancelled? && Live(n))) ==> d.dueAt <= t1
    ensures Refresh(Refresh(d, trashed, offset, t1), restored, offset, t2)
         == if Lapsed(d, t2) then CancelOpen(d, t1) else d
  {
  }

  lemma KeptRules(db: Db, ids: set<NoteId>, k: RuleKey)
    ensures !IsNewRule(db, KeepOffsets(db, ids), k) && !Recycles(db, KeepOffsets(db, ids), k)
    ensures k in db.rules ==> RuleAfter(db, KeepOffsets(db, ids), k) == db.rules[k]
    ensures k in db.rules && k.note in ids ==> (Wanted(KeepOffsets(db, ids), k) <==> db.rules[k].enabled)
  {
  }

  lemma SameKeep(db: Db, db': Db, ids: set<NoteId>)
    requires db'.rules == db.rules
    ensures KeepOffsets(db', ids) == KeepOffsets(db, ids)
  {
  }

  /** Relabelling with the enabled offsets starts no cycle and changes no rule. */
  lemma RelabelRules(db: Db, s: SeriesId, notes: map<NoteId, Note>, ids: set<NoteId>,
                     actions: map<ActionId, Action>, members: set<Membership>, now: Time)
    requires ids <= notes.Keys && s in db.series
    ensures var c := Relabelled(db, s, notes, ids, actions, members, now);
            c.rules == db.rules && c.deliveries.Keys == db.deliveries.Keys
  {
    hide EnabledOffsets, Reconcile;
    var mid, p := db.(notes := notes), KeepOffsets(db, ids);
    SameKeep(db, mid, ids);
    var c := Relabelled(db, s, notes, ids, actions, members, now);
    forall k: RuleKey ensures (k in c.rules <==> k in db.rules) && (k in db.rules ==> c.rules[k] == db.rules[k]) {
      RuleRow(mid, p, now, k);
      KeptRules(mid, ids, k);
    }
    assert c.rules == db.rules;
    forall dk: DeliveryKey ensures dk in c.deliveries <==> dk in db.deliveries {
      DeliveryRow(mid, p, now, dk);
      KeptRules(mid, ids, dk.rule);
    }
  }

  lemma RelabelDelivery(db: Db, s: SeriesId, notes: map<NoteId, Note>, ids: set<NoteId>,
                        actions: map<ActionId, Action>, members: set<Membership>, now: Time, dk: DeliveryKey)
    requires ids <= notes.Keys && s in db.series && dk in db.deliveries
    ensures var c := Relabelled(db, s, notes, ids, actions, members, now);
            && dk in c.deliveries
            && c.deliveries[dk] ==
                 if dk.rule.note !in ids || dk.rule !in db.rules || dk != CurrentKey(db, dk.rule) then db.deliveries[dk]
                 else if !db.rules[dk.rule].enabled then CancelOpen(db.deliveries[dk], now)
                 else Refresh(db.deliveries[dk], notes[dk.rule.note], dk.rule.offset, now)
  {
    hide EnabledOffsets, Reconcile, Refresh, CancelOpen;
    var mid, p := db.(notes := notes), KeepOffsets(db, ids);
    SameKeep(db, mid, ids);
    RelabelRules(db, s, notes, ids, actions, members, now);
    DeliveryRow(mid, p, now, dk);
    KeptRules(mid, ids, dk.rule);
  }

  // ---------- trash, then restore ----------

  /** The restore finds exactly the notes the trash took. */
  lemma SameNotes(db: Db, s: SeriesId, boundary: Time, a: ActionId, t1: Time)
    requires TrashInv(db) && s in db.series && a !in db.actions
    ensures MembersOf(Trashed(db, s, boundary, a, t1), a) == Portion(db, s, boundary)
  {
    hide Reconcile, EnabledOffsets;
    var ids := Portion(db, s, boundary);
    var c := Trashed(db, s, boundary, a, t1);
    NoPointersIn(db, a);
    forall n ensures n in MembersOf(c, a) <==> n in ids {
      if n in ids { assert Membership(a, n) in c.members; }
    }
  }

  function Versioned(n: Note, version: int): Note {
    n.(version := version)
  }

  lemma RoundTripDelivery(db: Db, s: SeriesId, boundary: Time, a: ActionId, t1: Time, t2: Time, dk: DeliveryKey)
    requires StoreInv(db) && OnTime(db, t1) && t1 <= t2
    requires s in db.series && a !in db.actions && dk in db.deliveries
    ensures var back := Restored(Trashed(db, s, boundary, a, t1), a, t2);
            && dk in back.deliveries
            && back.deliveries[dk] ==
                 if dk.rule.note in Portion(db, s, boundary) && Lapsed(db.deliveries[dk], t2)
                 then CancelOpen(db.deliveries[dk], t1) else db.deliveries[dk]
  {
    hide Reconcile, EnabledOffsets, RedactionInv, LineageInv, SlotInv, TrashInv, Refresh, CancelOpen, Notified;
    var ids := Portion(db, s, boundary);
    var mid := Trashed(db, s, boundary, a, t1);
    var d := db.deliveries[dk];
    SameNotes(db, s, boundary, a, t1);
    assert OnTime(db, t1) && InTime(db, dk, t1);
    var actions, members := db.actions[a := Action(s, boundary, t1, true)], db.members + Enrolments(a, ids);
    RelabelRules(db, s, TrashedNotes(db, ids, a, t1), ids, actions, members, t1);
    RelabelDelivery(db, s, TrashedNotes(db, ids, a, t1), ids, actions, members, t1, dk);
    RelabelDelivery(mid, s, RestoredNotes(mid, ids), ids, actions, members, t2, dk);
    if dk.rule.note in ids {
      OpenRows(db, dk);
      if dk == CurrentKey(db, dk.rule) && db.rules[dk.rule].enabled {
        var n := db.notes[dk.rule.note];
        ThereAndBack(d, n, mid.notes[dk.rule.note], RestoreRow(mid.notes[dk.rule.note]), dk.rule.offset, t1, t2);
      } else {
        ClosedStays(d, t1);
        ClosedStays(d, t2);
      }
    }
  }

  lemma ClosedStays(d: Delivery, now: Time)
    requires !Open(d)
    ensures CancelOpen(d, now) == d
  {
  }

  lemma OpenRows(db: Db, dk: DeliveryKey)
    requires ReminderInv(db) && dk in db.deliveries
    ensures dk.rule in db.rules && dk.rule.note in db.notes && Shape(db.deliveries[dk])
    ensures Open(db.deliveries[dk]) ==> Deliverable(db, dk) && dk == CurrentKey(db, dk.rule)
    ensures db.rules[dk.rule].enabled && dk == CurrentKey(db, dk.rule) ==>
              db.deliveries[dk].dueAt == DueAt(db.notes[dk.rule.note].startsAt, dk.rule.offset)
  {
  }

  /** Trashing a portion and restoring that action within retention, with nothing in between,
      is accepted and gives back every note (but for two version bumps), every rule, and every
      delivery except those whose deadline passed meanwhile: these stay cancelled. Notes that
      were already deleted were not taken and stay deleted. */
  lemma TrashThenRestore(db: Db, s: SeriesId, boundary: Time, a: ActionId, t1: Time, t2: Time)
    requires StoreInv(db) && OnTime(db, t1) && t1 <= t2 < t1 + RETENTION
    requires s in db.series && db.series[s].purgedAt.None? && a !in db.actions && Portion(db, s, boundary) != {}
    ensures var ids, mid := Portion(db, s, boundary), Trashed(db, s, boundary, a, t1);
            var r := RestoreAction(mid, a, db.series[s].version + 1, None, t2);
            && r.Success?
            && r.value.rules == db.rules && r.value.deliveries.Keys == db.deliveries.Keys
            && r.value.notes.Keys == db.notes.Keys
            && (forall n :: n in db.notes ==>
                  r.value.notes[n] == Versioned(db.notes[n], db.notes[n].version + if n in ids then 2 else 0))
            && (forall dk :: dk in db.deliveries ==>
                  r.value.deliveries[dk] == if dk.rule.note in ids && Lapsed(db.deliveries[dk], t2)
                                            then CancelOpen(db.deliveries[dk], t1) else db.deliveries[dk])
  {
    hide Reconcile, EnabledOffsets, ReminderInv, RedactionInv, LineageInv, SlotInv, OnTime, CancelOpen, Advances;
    var ids, mid := Portion(db, s, boundary), Trashed(db, s, boundary, a, t1);
    SameNotes(db, s, boundary, a, t1);
    Accepted(db, s, boundary, a, t1, t2);
    var back := Restored(mid, a, t2);
    var actions, members := db.actions[a := Action(s, boundary, t1, true)], db.members + Enrolments(a, ids);
    RelabelRules(db, s, TrashedNotes(db, ids, a, t1), ids, actions, members, t1);
    RelabelRules(mid, s, RestoredNotes(mid, ids), ids, actions, members, t2);
    forall n | n in db.notes
      ensures back.notes[n] == Versioned(db.notes[n], db.notes[n].version + if n in ids then 2 else 0)
    {
      if n in ids { NotTaken(db, n); }
    }
    forall dk | dk in db.deliveries
      ensures back.deliveries[dk] == if dk.rule.note in ids && Lapsed(db.deliveries[dk], t2)
                                     then CancelOpen(db.deliveries[dk], t1) else db.deliveries[dk]
    {
      RoundTripDelivery(db, s, boundary, a, t1, t2, dk);
    }
  }

  lemma NotTaken(db: Db, n: NoteId)
    requires TrashInv(db) && n in db.notes && db.notes[n].deletedAt.None?
    ensures db.notes[n].action.None?
  {
  }

  lemma Accepted(db: Db, s: SeriesId, boundary: Time, a: ActionId, t1: Time, t2: Time)
    requires TrashInv(db) && t2 < t1 + RETENTION
    requires s in db.series && db.series[s].purgedAt.None? && a !in db.actions && Portion(db, s, boundary) != {}
    ensures RestoreError(Trashed(db, s, boundary, a, t1), a, db.series[s].version + 1, None, t2).None?
  {
    hide Reconcile, EnabledOffsets, Portion, TrashInv;
    var ids, c := Portion(db, s, boundary), Trashed(db, s, boundary, a, t1);
    SameNotes(db, s, boundary, a, t1);
    PortionIn(db, s, boundary);
    var current := set n | n in ids && c.notes[n].action == Some(a);
    assert current == ids;
  }

  lemma PortionIn(db: Db, s: SeriesId, boundary: Time)
    ensures Portion(db, s, boundary) <= db.notes.Keys
  {
  }

  // ---------- two open actions of one series ----------

  /** Both actions restored, whichever came first. */
  ghost function BothRestored(db: Db, s: SeriesId, ids: set<NoteId>, now: Time): Db
    requires s in db.series
  {
    var r := Reconcile(db.(notes := RestoredNotes(db, ids)), KeepOffsets(db, ids * db.notes.Keys), now);
    var v := db.series[s].version;
    r.(series := db.series[s := db.series[s].(version := v + 2)],
       outbox := db.outbox + [Event(SeriesUpdated, SeriesEntity(s), v + 1),
                              Event(SeriesUpdated, SeriesEntity(s), v + 2)])
  }

  lemma PlansMeet(db: Db, a: set<NoteId>, b: set<NoteId>)
    requires a !! b
    ensures Both(KeepOffsets(db, a), KeepOffsets(db, b)) == KeepOffsets(db, a + b)
  {
  }

  lemma NotesTwice(db: Db, mid: Db, A: set<NoteId>, B: set<NoteId>)
    requires A !! B && mid.notes == RestoredNotes(db, A)
    ensures RestoredNotes(mid, B) == RestoredNotes(db, A + B)
  {
  }

  lemma MembersStay(db: Db, b: ActionId, mid: Db)
    requires mid.members == db.members && mid.notes.Keys == db.notes.Keys
    ensures MembersOf(mid, b) == MembersOf(db, b)
  {
  }

  lemma RestoreTurns(db: Db, A: set<NoteId>, B: set<NoteId>, now: Time)
    requires A !! B && A + B <= db.notes.Keys
    ensures Reconcile(
              Reconcile(db.(notes := RestoredNotes(db, A)), KeepOffsets(db, A),
                        now).(notes := RestoredNotes(db, A + B)),
                      KeepOffsets(db, B), now)
         == Reconcile(db.(notes := RestoredNotes(db, A + B)), KeepOffsets(db, A + B), now)
  {
    hide Reconcile, EnabledOffsets, Both;
    var start, notes := db.(notes := RestoredNotes(db, A)), RestoredNotes(db, A + B);
    ReconcileInTurn(start, notes, KeepOffsets(db, A), KeepOffsets(db, B), now);
    PlansMeet(db, A, B);
    assert start.(notes := notes) == db.(notes := notes);
  }

  lemma RestoredTwice(db: Db, a: ActionId, b: ActionId, s: SeriesId, now: Time)
    requires s in db.series && a in db.actions && b in db.actions
    requires db.actions[a].series == s && db.actions[b].series == s
    requires MembersOf(db, a) !! MembersOf(db, b)
    requires MembersOf(db, a) + MembersOf(db, b) <= db.notes.Keys
    ensures Restored(Restored(db, a, now), b, now) == BothRestored(db, s, MembersOf(db, a) + MembersOf(db, b), now)
  {
    hide Reconcile, EnabledOffsets, MembersOf, RestoreRow;
    var A, B := MembersOf(db, a), MembersOf(db, b);
    var one := Restored(db, a, now);
    var q := KeepOffsets(db, B);
    RelabelRules(db, s, RestoredNotes(db, A), A, db.actions, db.members, now);
    SameKeep(db, one, B);
    MembersStay(db, b, one);
    NotesTwice(db, one, A, B);
    RestoreTurns(db, A, B, now);
    assert (A + B) * db.notes.Keys == A + B;
    var notes := RestoredNotes(db, A + B);
    var mid := Reconcile(db.(notes := RestoredNotes(db, A)), KeepOffsets(db, A), now).(notes := notes);
    SameInputs(mid, one.(notes := notes), q, now);
    EventsInARow(db.outbox, s, db.series[s].version);
  }

  lemma EventsInARow(outbox: seq<Event>, s: SeriesId, v: int)
    ensures outbox + [Event(SeriesUpdated, SeriesEntity(s), v + 1)] + [Event(SeriesUpdated, SeriesEntity(s), v + 2)]
         == outbox + [Event(SeriesUpdated, SeriesEntity(s), v + 1), Event(SeriesUpdated, SeriesEntity(s), v + 2)]
  {
  }

  /** Restoring two open actions of one series in either order gives the same store. */
  lemma RestoresCommute(db: Db, a: ActionId, b: ActionId, now: Time)
    requires TrashInv(db) && a != b && a in db.actions && b in db.actions && OpenAction(db, a) && OpenAction(db, b)
    requires db.actions[a].series == db.actions[b].series && db.actions[a].series in db.series
    ensures Restored(Restored(db, a, now), b, now) == Restored(Restored(db, b, now), a, now)
  {
    hide Reconcile, EnabledOffsets, BothRestored, Restored;
    var s := db.actions[a].series;
    var A, B := MembersOf(db, a), MembersOf(db, b);
    MembersDisjoint(db, a, b);
    assert A + B == B + A;
    RestoredTwice(db, a, b, s, now);
    RestoredTwice(db, b, a, s, now);
  }

  lemma MembersDisjoint(db: Db, a: ActionId, b: ActionId)
    requires a != b && OpenAction(db, a) && OpenAction(db, b)
    ensures MembersOf(db, a) !! MembersOf(db, b)
  {
  }

  // ---------- the restore of an action by one of its notes ----------

  // restore_note, when the note is held by an action (router.py:382-398)
  function RestoreByNote(db: Db, id: NoteId, version: int, seriesVersion: Option<int>, now: Time): Result<Db, ApiError>
    requires id in db.notes && db.notes[id].action.Some?
  {
    if !Visible(db, id) then Failure(NotFound)
    else if seriesVersion.None? then Failure(ValidationError)
    else RestoreAction(db, db.notes[id].action.value, seriesVersion.value, Some(Selected(id, version)), now)
  }

  /** Restoring one note of an action restores the action: same store as the direct route,
      with every member out of the trash. */
  lemma NoteRouteRestoresAction(db: Db, id: NoteId, version: int, seriesVersion: Option<int>, now: Time)
    requires StoreInv(db) && id in db.notes && db.notes[id].action.Some?
    ensures var a := db.notes[id].action.value; var r := RestoreByNote(db, id, version, seriesVersion, now);
            && (r.Success? <==>
                  (seriesVersion.Some? && db.notes[id].version == version
                   && RestoreAction(db, a, seriesVersion.value, None, now).Success?))
            && (r.Success? ==>
                  (r == RestoreAction(db, a, seriesVersion.value, None, now)
                   && Keeps(db, r.value) && Closed(r.value, a)
                   && forall n :: n in MembersOf(db, a) ==> n in r.value.notes && r.value.notes[n].deletedAt.None?))
  {
    hide ReminderInv, SlotInv, LineageInv, RedactionInv, Reconcile, EnabledOffsets, Advances, Closed;
    var a := db.notes[id].action.value;
    assert PointsHome(db, id);
    var m := Membership(a, id);
    assert m in db.members && Pinned(db, a, id) && m.note in MembersOf(db, a);
    if RestoreByNote(db, id, version, seriesVersion, now).Success? {
      RestoreActionKeeps(db, a, seriesVersion.value, Some(Selected(id, version)), now);
    }
  }

  // ---------- the handler behind that route ----------

  /** restore_note, whichever branch the note takes. */
  function RestoreAnyNote(db: Db, id: NoteId, version: int, seriesVersion: Option<int>, now: Time)
    : Result<Db, ApiError>
  {
    if Visible(db, id) && db.notes[id].action.Some? then RestoreByNote(db, id, version, seriesVersion, now)
    else H.RestoreNote(db, id, version, seriesVersion, now)
  }

  // router.py:378-422
  method RestoreAnyNoteTx(session: Session, id: NoteId, version: int, seriesVersion: Option<int>, now: Time)
    returns (r: Result<(), ApiError>)
    requires StoreInv(session.db)
    modifies session`db
    ensures H.Committed(old(session.db), session.db, RestoreAnyNote(old(session.db), id, version, seriesVersion, now),
            r)
  {
    hide StoreInv, RestoreAction;
    if Visible(session.db, id) && session.db.notes[id].action.Some? {
      if seriesVersion.None? { return Failure(ValidationError); }
      r := RestoreTrashActionTx(session, session.db.notes[id].action.value, seriesVersion.value,
                                Some(Selected(id, version)), now);
    } else if !Visible(session.db, id) {
      return Failure(NotFound);
    } else {
      r := H.RestoreNoteTx(session, id, version, seriesVersion, now);
    }
  }
}

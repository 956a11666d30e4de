/** What one committed purge batch leaves in every table, field by field. */
module PurgeResults {
  import opened Prelude
  import opened Storage
  import opened Maintenance

  /** Deleted at or before the cutoff and still with its content. */
  predicate PastRetention(n: Note, cutoff: Time) {
    n.deletedAt.Some? && n.deletedAt.value <= cutoff && n.purgedAt.None?
  }

  /** The note with nothing left of what was written in it, out of any action. */
  predicate IsRedaction(n: Note, n': Note, now: Time) {
    n' == n.(title := "[purged]", body := "", purgedAt := Some(now), action := None, version := n.version + 1)
  }

  lemma ExpiredMeans(db: Db, cutoff: Time)
    ensures forall n :: n in ExpiredNotes(db, cutoff) <==> n in db.notes && PastRetention(db.notes[n], cutoff)
  {
  }

  /** The batch looks at the note: it picked it, or an action of a note it picked holds it. */
  predicate Met(db: Db, picked: set<NoteId>, n: NoteId) {
    && n in db.notes
    && (n in picked
        || exists m, p :: m in db.members && p in picked && p in db.notes && m.note == n
                          && db.notes[p].action == Some(m.action) && db.notes[n].action == Some(m.action))
  }

  lemma CandidatesMean(db: Db, picked: set<NoteId>, n: NoteId)
    ensures n in Candidates(db, picked) && n in db.notes <==> Met(db, picked, n)
  {
    if Met(db, picked, n) && n !in picked {
      var m, p :| m in db.members && p in picked && p in db.notes && m.note == n
                  && db.notes[p].action == Some(m.action) && db.notes[n].action == Some(m.action);
      assert m.action in ActionsOf(db, picked);
    }
  }

  /** It takes those that are past retention. */
  lemma TargetsMean(db: Db, picked: set<NoteId>, cutoff: Time, n: NoteId)
    ensures n in Targets(db, picked, cutoff) <==> Met(db, picked, n) && PastRetention(db.notes[n], cutoff)
  {
    hide Candidates, Met;
    CandidatesMean(db, picked, n);
  }

  /** The batch purges the series: it looked at one of its notes, and none of them is left. */
  ghost predicate SeriesGoes(db: Db, after: Db, picked: set<NoteId>, s: SeriesId) {
    && s in db.series && db.series[s].purgedAt.None?
    && (exists n :: Met(db, picked, n) && db.notes[n].seriesId == Some(s))
    && (forall n :: n in after.notes && after.notes[n].seriesId == Some(s) ==> after.notes[n].purgedAt.Some?)
  }

  predicate SlotOf(db: Db, ids: set<NoteId>, k: SlotKey) {
    exists n :: n in ids && n in db.notes && db.notes[n].seriesId == Some(k.series)
                && db.notes[n].recurrenceKey == Some(k.key)
  }

  /** Notes, deliveries, notifications and tags of what the batch takes; nothing of other notes. */
  ghost predicate NotesRedacted(db: Db, after: Db, ids: set<NoteId>, now: Time) {
    && after.notes.Keys == db.notes.Keys
    && (forall n :: n in db.notes ==>
          if n in ids then IsRedaction(db.notes[n], after.notes[n], now) else after.notes[n] == db.notes[n])
    && after.deliveries.Keys == db.deliveries.Keys
    && (forall dk :: dk in db.deliveries ==>
          after.deliveries[dk] == if dk.rule.note in ids then db.deliveries[dk].(content := None, recipient := None)
                                  else db.deliveries[dk])
    && after.notifications.Keys == db.notifications.Keys
    && (forall dk :: dk in db.notifications ==>
          after.notifications[dk] == if dk.rule.note in ids then db.notifications[dk].(title := "[purged]", body := "")
                                     else db.notifications[dk])
    && (forall t :: t in after.noteTags <==> t in db.noteTags && t.note !in ids)
    && after.rules == db.rules && after.actions == db.actions && after.members == db.members && after.tags == db.tags
  }

  lemma BatchRedactsNotes(db: Db, picked: set<NoteId>, order: seq<NoteId>, cutoff: Time, now: Time)
    requires Elements(order) == Targets(db, picked, cutoff) && Purge(db, picked, order, cutoff, now).Some?
    ensures NotesRedacted(db, Purge(db, picked, order, cutoff, now).value, Targets(db, picked, cutoff), now)
  {
    hide EmptiedSeries, PurgedExceptions, PurgeEvents, Candidates, Targets;
  }

  /** Series without a note left, their template and exceptions; and the exceptions of the slots
      that the notes taken held. */
  ghost predicate SeriesRedacted(db: Db, after: Db, picked: set<NoteId>, ids: set<NoteId>, now: Time) {
    && after.series.Keys == db.series.Keys
    && (forall s :: s in db.series ==>
          after.series[s] == if SeriesGoes(db, after, picked, s)
            then db.series[s].(localStart := EPOCH, timezone := "UTC", frequency := Daily, endDate := EPOCH_DAY,
                               title := "[purged]", body := "", active := false, purgedAt := Some(now),
                               version := db.series[s].version + 1)
            else db.series[s])
    && (forall t :: t in after.seriesTags <==> t in db.seriesTags && !SeriesGoes(db, after, picked, t.series))
    && (forall t :: t in after.templates <==> t in db.templates && !SeriesGoes(db, after, picked, t.series))
    && after.exceptions.Keys == db.exceptions.Keys
    && (forall k :: k in db.exceptions ==>
          after.exceptions[k] == if SeriesGoes(db, after, picked, k.series) then OccurrenceException(NO_OVERRIDES, true)
            else if SlotOf(db, ids, k) then db.exceptions[k].(overridden := NO_OVERRIDES)
            else db.exceptions[k])
  }

  lemma EmptiedMeans(db: Db, picked: set<NoteId>, after: Db, s: SeriesId)
    ensures s in EmptiedSeries(db, after.notes, Candidates(db, picked)) <==> SeriesGoes(db, after, picked, s)
  {
    hide Candidates, Met;
    forall n ensures n in Candidates(db, picked) && n in db.notes <==> Met(db, picked, n) {
      CandidatesMean(db, picked, n);
    }
  }

  lemma BatchRedactsSeries(db: Db, picked: set<NoteId>, order: seq<NoteId>, cutoff: Time, now: Time)
    requires Elements(order) == Targets(db, picked, cutoff) && Purge(db, picked, order, cutoff, now).Some?
    ensures SeriesRedacted(db, Purge(db, picked, order, cutoff, now).value, picked, Targets(db, picked, cutoff), now)
  {
    hide EmptiedSeries, PurgeEvents, Candidates, Targets, SeriesGoes, PurgedNotes;
    var after := Purge(db, picked, order, cutoff, now).value;
    forall s ensures s in EmptiedSeries(db, after.notes, Candidates(db, picked)) <==> SeriesGoes(db, after, picked, s) {
      EmptiedMeans(db, picked, after, s);
    }
  }

  /** One event for each note taken, in the order of the batch, with its version after it. */
  lemma BatchAnnounces(db: Db, picked: set<NoteId>, order: seq<NoteId>, cutoff: Time, now: Time)
    requires Elements(order) == Targets(db, picked, cutoff) && Purge(db, picked, order, cutoff, now).Some?
    ensures var after := Purge(db, picked, order, cutoff, now).value;
            && |after.outbox| == |db.outbox| + |order| && db.outbox <= after.outbox
            && forall i :: 0 <= i < |order| ==>
                 order[i] in after.notes
                 && after.outbox[|db.outbox| + i]
                    == Event(NoteDeleted, NoteEntity(order[i]), after.notes[order[i]].version)
  {
    hide EmptiedSeries, PurgedExceptions, Candidates, Targets;
    forall i | 0 <= i < |order| ensures order[i] in Targets(db, picked, cutoff) { assert order[i] in Elements(order); }
  }
}

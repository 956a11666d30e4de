/** What a split spares, in every run: the past, the trash and whatever its caller had not seen. */
module SplitHistory {
  import opened Storage
  import opened SeriesCreation
  import opened Split
  import opened SeriesRequests
  import opened Protocol

  /** A split commits only for a request that fits the store it meets: the versions of the series
      and of the selected occurrence are those named, and nothing from that occurrence on is in the
      trash or has started. */
  lemma SplitsAreCurrent(run: seq<World>, steps: seq<Step>, i: nat)
    requires Run(run, steps) && i < |steps| && steps[i].Transact? && steps[i].tx.SplitTx?
    ensures var tx := steps[i].tx;
            WellTyped(tx.request.fields) && Splittable(run[i].db, tx.e, tx.s, tx.request, steps[i].now)
  {
    hide Splittable, SplitError, Acceptable, AfterSplit, Generated;
    var tx := steps[i].tx;
    assert Next(run[i], run[i + 1], steps[i]);
    SplitAccepted(run[i].db, tx.e, tx.s, tx.request, steps[i].now);
  }

  /** In every run a split leaves each note that has already started, with its rules, deliveries
      and tags, exactly as it was. */
  lemma SplitsSpareThePast(run: seq<World>, steps: seq<Step>, i: nat, n: NoteId)
    requires Run(run, steps) && i < |steps| && steps[i].Transact? && steps[i].tx.SplitTx?
    requires n in run[i].db.notes && run[i].db.notes[n].startsAt <= steps[i].now
    ensures var a, b := run[i].db, run[i + 1].db;
            && n in b.notes && b.notes[n] == a.notes[n]
            && (forall k: RuleKey :: k.note == n ==>
                  (k in b.rules <==> k in a.rules) && (k in a.rules ==> b.rules[k] == a.rules[k]))
            && (forall dk: DeliveryKey :: dk.rule.note == n ==>
                  (dk in b.deliveries <==> dk in a.deliveries)
                  && (dk in a.deliveries ==> b.deliveries[dk] == a.deliveries[dk]))
            && (forall t: NoteTag :: t.note == n ==> (t in b.noteTags <==> t in a.noteTags))
  {
    hide SplitOutcome;
    var tx := steps[i].tx;
    assert Next(run[i], run[i + 1], steps[i]);
    StartedIsUntouched(run[i].db, tx.e, tx.s, tx.request, steps[i].now, tx.successor, tx.slots, run[i + 1].db, n);
  }
}

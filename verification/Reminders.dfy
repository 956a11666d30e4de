/** backend/app/jobs/reminders.py: what each transaction of the delivery protocol does to
    the store, and the jobs that run them. */
module Reminders {
  import opened Prelude
  import opened Storage
  import opened Reconciliation
  import opened Progress
  import opened Api

  // ---------- _claim_due_batch ----------

  predicate Claimable(d: Delivery, now: Time) {
    && (d.state.Pending?
        || (d.state.Claimed? && d.claimExpiresAt.Some? && d.claimExpiresAt.value <= now))
    && d.dueAt <= now
  }

  function ClaimableKeys(db: Db, now: Time): set<DeliveryKey> {
    set dk | dk in db.deliveries && Claimable(db.deliveries[dk], now)
  }

  predicate Late(d: Delivery, now: Time, grace: Time) {
    d.dueAt < now - grace
  }

  function Miss(d: Delivery, now: Time): Delivery {
    d.(state := Missed, claimToken := None, claimExpiresAt := None, resultAt := Some(now))
  }

  function Claim(d: Delivery, token: Token, expiresAt: Time): Delivery {
    d.(state := Claimed, claimToken := Some(token), claimExpiresAt := Some(expiresAt))
  }

  /** The scan's terms: its clock reading, the grace period and the lease. */
  datatype Terms = Terms(now: Time, grace: Time, lease: Time)

  function Scanned(d: Delivery, t: Terms, token: Token): Delivery {
    if Late(d, t.now, t.grace) then Miss(d, t.now) else Claim(d, token, t.now + t.lease)
  }

  /** One batch: `tokens` names the rows the query returned and the token of each. */
  function ClaimBatch(db: Db, t: Terms, tokens: map<DeliveryKey, Token>): Db {
    db.(deliveries := map dk | dk in db.deliveries ::
          if dk in tokens then Scanned(db.deliveries[dk], t, tokens[dk]) else db.deliveries[dk])
  }

  // ---------- authorize_delivery ----------

  datatype Email = Email(recipient: string, subject: string, body: string, messageId: DeliveryKey)

  /** Row-level outcome of the final authorization, in the order the checks are made. */
  datatype Verdict = Ignored | Withdrawn | Early | TooLate | Authorized

  function Judge(db: Db, dk: DeliveryKey, token: Token, now: Time, grace: Time): Verdict {
    if dk !in db.deliveries || dk.rule !in db.rules || dk.rule.note !in db.notes then Ignored
    else
      var d, rule, note := db.deliveries[dk], db.rules[dk.rule], db.notes[dk.rule.note];
      if !d.state.Claimed? || d.claimToken != Some(token) then Ignored
      else if !rule.enabled || rule.cycle != dk.cycle || !Live(note) then Withdrawn
      else if d.dueAt > now then Early
      else if d.dueAt < now - grace then TooLate
      else Authorized
  }

  function Released(d: Delivery, state: DeliveryState, resultAt: Option<Time>): Delivery {
    d.(state := state, claimToken := None, claimExpiresAt := None, resultAt := resultAt)
  }

  function Authorization(d: Delivery, note: Note, id: NoteId, recipient: string, now: Time): Delivery {
    d.(state := AttemptStarted, authorizedAt := Some(now), claimExpiresAt := None,
       recipient := Some(recipient), content := Some(Content(note.title, note.body, id)))
  }

  function NotificationEvent(dk: DeliveryKey): Event {
    Event(NotificationCreated, NotificationEntity(dk), 1)
  }

  function AuthorizedDb(db: Db, dk: DeliveryKey, now: Time, recipient: string): (db': Db)
    requires dk in db.deliveries && dk.rule.note in db.notes
    ensures db' == db.(deliveries := db'.deliveries, notifications := db'.notifications, outbox := db'.outbox)
  {
    var d, note := db.deliveries[dk], db.notes[dk.rule.note];
    db.(deliveries := db.deliveries[dk := Authorization(d, note, dk.rule.note, recipient, now)],
        notifications := db.notifications[dk := Notification(d.dueAt, note.title, note.body)],
        outbox := db.outbox + [NotificationEvent(dk)])
  }

  /** The store after the authorization transaction. */
  function Authorize(db: Db, dk: DeliveryKey, token: Token, now: Time, grace: Time, recipient: string): Db {
    match Judge(db, dk, token, now, grace)
    case Ignored => db
    case Withdrawn => PutDelivery(db, dk, Released(db.deliveries[dk], Cancelled, Some(now)))
    case Early => PutDelivery(db, dk, Released(db.deliveries[dk], Pending, None))
    case TooLate => PutDelivery(db, dk, Released(db.deliveries[dk], Missed, Some(now)))
    case Authorized => AuthorizedDb(db, dk, now, recipient)
  }

  /** The email it hands to the sender, if any. */
  function AuthorizedEmail(db: Db, dk: DeliveryKey, token: Token, now: Time, grace: Time, recipient: string)
    : Option<Email>
  {
    if Judge(db, dk, token, now, grace).Authorized? then
      var note := db.notes[dk.rule.note];
      Some(Email(recipient, "Reminder: " + note.title, note.body, dk))
    else None
  }

  function PutDelivery(db: Db, dk: DeliveryKey, d: Delivery): (db': Db)
    ensures db' == db.(deliveries := db'.deliveries)
  {
    db.(deliveries := db.deliveries[dk := d])
  }

  // ---------- the second transaction of deliver, and classify_unknown ----------

  datatype Outcome = Accepted | BadAddress | Refused | Ambiguous

  function OutcomeState(o: Outcome): DeliveryState {
    match o
    case Accepted => Sent
    case BadAddress => Failed
    case Refused => Failed
    case Ambiguous => Unknown
  }

  function OutcomeCode(o: Outcome): Option<ErrorCode> {
    match o
    case Accepted => None
    case BadAddress => Some(InvalidRecipient)
    case Refused => Some(SmtpSendFailed)
    case Ambiguous => Some(SmtpOutcomeUnknown)
  }

  // _valid_recipient: something on either side of the first @, and no white space anywhere.
  predicate ValidRecipient(r: string) {
    && (forall c :: c in r ==> !IsSpace(c))
    && exists i :: 0 < i < |r| - 1 && r[i] == '@' && '@' !in r[..i]
  }

  /** An address has one part before its first @ and one after it, and no white space. */
  lemma AddressHasTwoParts(r: string)
    ensures ValidRecipient(r) <==>
              (forall c :: c in r ==> !IsSpace(c))
              && exists local: string, domain: string ::
                   local != "" && domain != "" && '@' !in local && r == local + "@" + domain
  {
    if ValidRecipient(r) {
      var i :| 0 < i < |r| - 1 && r[i] == '@' && '@' !in r[..i];
      assert r == r[..i] + "@" + r[i + 1..];
    }
    if local: string, domain: string :| local != "" && domain != "" && '@' !in local && r == local + "@" + domain {
      assert r[..|local|] == local;
    }
  }

  function Clip(s: string): string {
    if |s| <= 255 then s else s[..255]
  }

  // _record_visible_email_failure: the prefix is added once.
  function MarkFailure(n: Notification, unknown: bool): Notification {
    var prefix := if unknown then UNKNOWN else FAILED;
    if prefix <= n.title then n else n.(title := Clip(prefix + n.title))
  }

  const FAILED := "[Email failed] "
  const UNKNOWN := "[Email outcome unknown] "

  /** The failure shows at the head of the title, once: a title that already shows it stays, any
      other keeps its beginning behind the prefix, and no title outgrows its column. */
  predicate MarkedOnce(n: Notification, n': Notification, unknown: bool) {
    var prefix := if unknown then UNKNOWN else FAILED;
    && prefix <= n'.title <= (if prefix <= n.title then n.title else prefix + n.title)
    && (prefix <= n.title ==> n' == n)
    && (|n.title| <= 255 ==> |n'.title| <= 255)
    && (|prefix + n.title| <= 255 || prefix <= n.title || |n'.title| == 255)
    && n' == n.(title := n'.title)
  }

  /** Marking a notification marks it once, however often it is repeated. */
  lemma MarkIsOnce(n: Notification, unknown: bool)
    ensures MarkedOnce(n, MarkFailure(n, unknown), unknown)
    ensures MarkFailure(MarkFailure(n, unknown), unknown) == MarkFailure(n, unknown)
  {
    var prefix := if unknown then UNKNOWN else FAILED;
    assert prefix <= Clip(prefix + n.title);
  }

  function Finish(d: Delivery, o: Outcome, finishedAt: Time): Delivery {
    d.(state := OutcomeState(o), errorCode := OutcomeCode(o), resultAt := Some(finishedAt))
  }

  function RecordOutcome(db: Db, dk: DeliveryKey, o: Outcome, finishedAt: Time): Db
    requires dk in db.deliveries
    requires db.deliveries[dk].state.AttemptStarted? ==> dk in db.notifications
  {
    if !db.deliveries[dk].state.AttemptStarted? then db
    else
      var db' := PutDelivery(db, dk, Finish(db.deliveries[dk], o, finishedAt));
      if o.Accepted? then db'
      else db'.(notifications := db.notifications[dk := MarkFailure(db.notifications[dk], o.Ambiguous?)],
                outbox := db.outbox + [NotificationEvent(dk)])
  }

  predicate Stale(d: Delivery, now: Time, olderThan: Time) {
    d.state.AttemptStarted? && d.authorizedAt.Some? && d.authorizedAt.value < now - olderThan
  }

  function Abandon(d: Delivery, now: Time): Delivery {
    d.(state := Unknown, resultAt := Some(now),
       errorCode := if d.errorCode.Some? then d.errorCode else Some(WorkerOutcomeUnknown))
  }

  function Classify(db: Db, rows: seq<DeliveryKey>, now: Time): Db
  {
    db.(deliveries := map dk | dk in db.deliveries ::
          if dk in rows then Abandon(db.deliveries[dk], now) else db.deliveries[dk],
        notifications := map dk | dk in db.notifications ::
          if dk in rows then MarkFailure(db.notifications[dk], true) else db.notifications[dk],
        outbox := db.outbox + seq(|rows|, i requires 0 <= i < |rows| => NotificationEvent(rows[i])))
  }

  // ---------- every transaction keeps the invariant and advances ----------

  /** A step that only moves deliveries along: same rows, same deadlines, nothing reopened. */
  predicate Moves(d: Delivery, d': Delivery) {
    DeliveryAdvances(d, d') && Shape(d') && (Open(d') ==> Open(d))
  }

  ghost predicate RowMoves(a: Db, b: Db, dk: DeliveryKey) {
    && (dk in a.deliveries <==> dk in b.deliveries)
    && (dk in a.deliveries ==> Moves(a.deliveries[dk], b.deliveries[dk]))
    && (dk in b.notifications <==> dk in b.deliveries && b.deliveries[dk].authorizedAt.Some?)
  }

  lemma MovesKeepInv(a: Db, b: Db)
    requires ReminderInv(a) && a.outbox <= b.outbox
    requires b == a.(deliveries := b.deliveries, notifications := b.notifications, outbox := b.outbox)
    requires forall dk: DeliveryKey :: RowMoves(a, b, dk)
    ensures ReminderInv(b) && Advances(a, b)
  {
    forall dk: DeliveryKey
      ensures dk in a.deliveries <==> dk in b.deliveries
      ensures dk in a.deliveries ==> Moves(a.deliveries[dk], b.deliveries[dk])
      ensures dk in b.notifications <==> dk in b.deliveries && b.deliveries[dk].authorizedAt.Some?
    {
      assert RowMoves(a, b, dk);
    }
    assert Numbered(b);
    forall dk | dk in b.deliveries && Open(b.deliveries[dk]) ensures Deliverable(b, dk) {
      assert Deliverable(a, dk);
    }
  }

  lemma ReleasedMoves(d: Delivery, now: Time)
    requires Shape(d) && d.state.Claimed?
    ensures Moves(d, Released(d, Cancelled, Some(now))) && Moves(d, Released(d, Pending, None))
    ensures Moves(d, Released(d, Missed, Some(now)))
  {
  }

  lemma AttemptMoves(d: Delivery, note: Note, id: NoteId, recipient: string, now: Time)
    requires Shape(d) && d.state.Claimed?
    ensures Moves(d, Authorization(d, note, id, recipient, now))
  {
  }

  lemma FinishMoves(d: Delivery, o: Outcome, now: Time)
    requires Shape(d) && d.state.AttemptStarted?
    ensures Moves(d, Finish(d, o, now)) && Moves(d, Abandon(d, now))
  {
  }

  lemma ClaimKeepsInv(db: Db, t: Terms, tokens: map<DeliveryKey, Token>)
    requires ReminderInv(db)
    requires forall dk :: dk in tokens ==> dk in db.deliveries && Claimable(db.deliveries[dk], t.now)
    ensures ReminderInv(ClaimBatch(db, t, tokens)) && Advances(db, ClaimBatch(db, t, tokens))
  {
    var db' := ClaimBatch(db, t, tokens);
    RowFacts(db);
    ClaimFrame(db, t, tokens);
    hide ReminderInv, RowMoves, Claimable, Shape, Advances, ClaimBatch;
    forall dk: DeliveryKey ensures RowMoves(db, db', dk) {
      ClaimRow(db, t, tokens, dk);
    }
    MovesKeepInv(db, db');
  }

  lemma ClaimFrame(db: Db, t: Terms, tokens: map<DeliveryKey, Token>)
    ensures var db' := ClaimBatch(db, t, tokens); db' == db.(deliveries := db'.deliveries)
  {
    hide Scanned;
  }

  lemma RowFacts(db: Db)
    requires ReminderInv(db)
    ensures forall dk :: dk in db.deliveries ==> Shape(db.deliveries[dk])
    ensures forall dk :: dk in db.notifications <==> dk in db.deliveries && db.deliveries[dk].authorizedAt.Some?
  {
  }

  lemma ClaimRow(db: Db, t: Terms, tokens: map<DeliveryKey, Token>, dk: DeliveryKey)
    requires dk in db.deliveries ==> Shape(db.deliveries[dk])
    requires dk in tokens ==> dk in db.deliveries && Claimable(db.deliveries[dk], t.now)
    requires dk in db.notifications <==> dk in db.deliveries && db.deliveries[dk].authorizedAt.Some?
    ensures RowMoves(db, ClaimBatch(db, t, tokens), dk)
  {
  }

  lemma PutKeepsInv(db: Db, dk: DeliveryKey, d: Delivery)
    requires ReminderInv(db) && dk in db.deliveries && Moves(db.deliveries[dk], d)
    requires d.authorizedAt.Some? <==> db.deliveries[dk].authorizedAt.Some?
    ensures ReminderInv(PutDelivery(db, dk, d)) && Advances(db, PutDelivery(db, dk, d))
  {
    var db' := PutDelivery(db, dk, d);
    forall x: DeliveryKey ensures RowMoves(db, db', x) {
      if x in db.deliveries { assert Shape(db.deliveries[x]); }
    }
    MovesKeepInv(db, db');
  }

  lemma AuthorizedKeepsInv(db: Db, dk: DeliveryKey, now: Time, recipient: string)
    requires ReminderInv(db) && dk in db.deliveries && dk.rule.note in db.notes
    requires db.deliveries[dk].state.Claimed?
    ensures ReminderInv(AuthorizedDb(db, dk, now, recipient)) && Advances(db, AuthorizedDb(db, dk, now, recipient))
  {
    var db' := AuthorizedDb(db, dk, now, recipient);
    assert Shape(db.deliveries[dk]);
    AttemptMoves(db.deliveries[dk], db.notes[dk.rule.note], dk.rule.note, recipient, now);
    forall x: DeliveryKey ensures RowMoves(db, db', x) {
      if x in db.deliveries { assert Shape(db.deliveries[x]); }
    }
    MovesKeepInv(db, db');
  }

  lemma AuthorizeKeepsInv(db: Db, dk: DeliveryKey, token: Token, now: Time, grace: Time, recipient: string)
    requires ReminderInv(db)
    ensures var db' := Authorize(db, dk, token, now, grace, recipient);
            ReminderInv(db') && Advances(db, db')
  {
    match Judge(db, dk, token, now, grace)
    case Ignored => AdvancesReflexive(db);
    case Authorized => AuthorizedKeepsInv(db, dk, now, recipient);
    case _ =>
      var d := db.deliveries[dk];
      assert Shape(d);
      ReleasedMoves(d, now);
      if Judge(db, dk, token, now, grace).Withdrawn? { PutKeepsInv(db, dk, Released(d, Cancelled, Some(now))); }
      else if Judge(db, dk, token, now, grace).Early? { PutKeepsInv(db, dk, Released(d, Pending, None)); }
      else { PutKeepsInv(db, dk, Released(d, Missed, Some(now))); }
  }

  lemma RecordKeepsInv(db: Db, dk: DeliveryKey, o: Outcome, finishedAt: Time)
    requires ReminderInv(db) && dk in db.deliveries
    ensures dk in db.notifications || !db.deliveries[dk].state.AttemptStarted?
    ensures var db' := RecordOutcome(db, dk, o, finishedAt); ReminderInv(db') && Advances(db, db')
  {
    RowFacts(db);
    assert Shape(db.deliveries[dk]);
    hide ReminderInv, Advances, RecordOutcome;
    if db.deliveries[dk].state.AttemptStarted? { RecordedKeepsInv(db, dk, o, finishedAt); }
    else { NothingRecorded(db, dk, o, finishedAt); }
  }

  lemma NothingRecorded(db: Db, dk: DeliveryKey, o: Outcome, finishedAt: Time)
    requires dk in db.deliveries && !db.deliveries[dk].state.AttemptStarted?
    ensures RecordOutcome(db, dk, o, finishedAt) == db && Advances(db, db)
  {
  }

  lemma RecordedKeepsInv(db: Db, dk: DeliveryKey, o: Outcome, finishedAt: Time)
    requires ReminderInv(db) && dk in db.deliveries && db.deliveries[dk].state.AttemptStarted? && dk in db.notifications
    ensures var db' := RecordOutcome(db, dk, o, finishedAt); ReminderInv(db') && Advances(db, db')
  {
    var d := db.deliveries[dk];
    RowFacts(db);
    FinishMoves(d, o, finishedAt);
    FinishedKeepsAuthorization(d, o, finishedAt);
    hide ReminderInv, Advances, MarkFailure, Finish, Moves;
    var put := PutDelivery(db, dk, Finish(d, o, finishedAt));
    PutKeepsInv(db, dk, Finish(d, o, finishedAt));
    if !o.Accepted? {
      var db' := RecordOutcome(db, dk, o, finishedAt);
      assert db'.notifications.Keys == put.notifications.Keys;
      NotificationsOnly(put, db');
      AdvancesTransitive(db, put, db');
    }
  }

  lemma FinishedKeepsAuthorization(d: Delivery, o: Outcome, now: Time)
    ensures Finish(d, o, now).authorizedAt == d.authorizedAt
  {
  }

  lemma NotificationsOnly(a: Db, b: Db)
    requires ReminderInv(a) && a.outbox <= b.outbox
    requires b == a.(notifications := b.notifications, outbox := b.outbox)
    requires b.notifications.Keys == a.notifications.Keys
    ensures ReminderInv(b) && Advances(a, b)
  {
    hide Shape, DeliveryAdvances, Live;
    AdvancesReflexive(a);
  }

  lemma ClassifyKeepsInv(db: Db, rows: seq<DeliveryKey>, now: Time)
    requires ReminderInv(db)
    requires forall dk :: dk in rows ==> dk in db.deliveries && db.deliveries[dk].state.AttemptStarted?
    ensures ReminderInv(Classify(db, rows, now)) && Advances(db, Classify(db, rows, now))
  {
    var db' := Classify(db, rows, now);
    forall x: DeliveryKey ensures RowMoves(db, db', x) {
      ClassifyRow(db, rows, now, x);
    }
    MovesKeepInv(db, db');
  }

  lemma ClassifyRow(db: Db, rows: seq<DeliveryKey>, now: Time, x: DeliveryKey)
    requires x in rows ==> x in db.deliveries && db.deliveries[x].state.AttemptStarted?
    requires x in db.deliveries ==> Shape(db.deliveries[x])
    requires x in db.notifications <==> x in db.deliveries && db.deliveries[x].authorizedAt.Some?
    ensures RowMoves(db, Classify(db, rows, now), x)
  {
    if x in rows { FinishMoves(db.deliveries[x], Accepted, now); }
  }

  /** The email of a final authorization belongs to a live note with the rule enabled and
      the cycle current, inside the grace window of the schedule then in force. */
  lemma EmailIsDue(db: Db, dk: DeliveryKey, token: Token, now: Time, grace: Time, recipient: string)
    requires ReminderInv(db) && AuthorizedEmail(db, dk, token, now, grace, recipient).Some?
    ensures Deliverable(db, dk) && dk in db.deliveries
    ensures db.deliveries[dk].state.Claimed? && db.deliveries[dk].claimToken == Some(token)
    ensures var note := db.notes[dk.rule.note];
            now - grace <= DueAt(note.startsAt, dk.rule.offset) <= now
  {
    assert dk == CurrentKey(db, dk.rule);
  }
}

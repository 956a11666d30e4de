/** The shared store: one row type per table, the tables, and the constraints the
    database itself enforces. */
module Storage {
  import opened Prelude

  // Instants are microseconds since a fixed epoch; uuids are drawn from int.
  type Time = int
  type NoteId = int
  type SeriesId = int
  type ActionId = int
  type TagId = int
  type Token = int

  const SECOND: Time := 1_000_000
  const MINUTE: Time := 60 * SECOND
  const DAY: Time := 86_400 * SECOND
  const RETENTION: Time := 30 * DAY

  // 1970-01-01 as a wall-clock reading and as a day number, day 1 being 0001-01-01.
  const EPOCH_DAY: int := 719_163
  const EPOCH: Wall := EPOCH_DAY * DAY

  datatype Note = Note(
    title: string, body: string, startsAt: Time, active: bool,
    deletedAt: Option<Time>, supersededAt: Option<Time>, purgedAt: Option<Time>,
    seriesTrashedAt: Option<Time>,
    seriesId: Option<SeriesId>, recurrenceKey: Option<Time>,
    action: Option<ActionId>, version: int)

  // UNIQUE (note_id, offset_minutes) and UNIQUE (reminder_rule_id, cycle_number).
  datatype RuleKey = RuleKey(note: NoteId, offset: int)
  datatype Rule = Rule(enabled: bool, cycle: int)
  datatype DeliveryKey = DeliveryKey(rule: RuleKey, cycle: int)

  datatype DeliveryState =
    Pending | Claimed | AttemptStarted | Sent | Failed | Unknown | Missed | Cancelled

  datatype ErrorCode =
    InvalidRecipient | SmtpSendFailed | SmtpOutcomeUnknown | WorkerOutcomeUnknown
  | DeliveryFailedLegacy | DeliveryOutcomeUnknownLegacy

  datatype Content = Content(title: string, body: string, note: NoteId)

  datatype Delivery = Delivery(
    dueAt: Time, state: DeliveryState,
    claimToken: Option<Token>, claimExpiresAt: Option<Time>,
    authorizedAt: Option<Time>, recipient: Option<string>, content: Option<Content>,
    resultAt: Option<Time>, errorCode: Option<ErrorCode>)

  // UNIQUE (reminder_delivery_id): a notification is keyed by its delivery.
  datatype Notification = Notification(scheduledAt: Time, title: string, body: string)

  datatype Frequency = Daily | Weekly | Monthly

  // A naive datetime: its day number (0001-01-01 is day 1) times DAY plus the time of day.
  type Wall = int

  datatype Series = Series(
    lineage: SeriesId, predecessor: Option<SeriesId>, splitBoundary: Option<Time>,
    localStart: Wall, timezone: string, frequency: Frequency, endDate: int,
    title: string, body: string, active: bool, purgedAt: Option<Time>, version: int)

  datatype Action = Action(series: SeriesId, boundary: Time, trashedAt: Time, sealed: bool)
  datatype Membership = Membership(action: ActionId, note: NoteId)

  // UNIQUE (series_id, recurrence_key).
  datatype SlotKey = SlotKey(series: SeriesId, key: Time)
  datatype Overrides = Overrides(
    title: Option<string>, body: Option<string>, startsAt: Option<Time>, active: Option<bool>,
    tags: Option<set<TagId>>, offsets: Option<set<int>>)
  datatype OccurrenceException = OccurrenceException(overridden: Overrides, cancelled: bool)

  datatype NoteTag = NoteTag(note: NoteId, tag: TagId)
  datatype SeriesTag = SeriesTag(series: SeriesId, tag: TagId)
  datatype Template = Template(series: SeriesId, offset: int)

  datatype EventType =
    NoteCreated | NoteUpdated | NoteDeleted | NoteRestored | SeriesUpdated
  | TagDeleted | NotificationCreated
  datatype Entity = NoteEntity(note: NoteId) | SeriesEntity(series: SeriesId)
                  | TagEntity(tag: TagId) | NotificationEntity(delivery: DeliveryKey)
  datatype Event = Event(kind: EventType, entity: Entity, version: int)

  /** The tables. `outbox` is the log of inserted outbox rows, oldest first; what the
      publisher does with the rows is in module Outbox. */
  datatype Db = Db(
    notes: map<NoteId, Note>,
    rules: map<RuleKey, Rule>,
    deliveries: map<DeliveryKey, Delivery>,
    notifications: map<DeliveryKey, Notification>,
    series: map<SeriesId, Series>,
    actions: map<ActionId, Action>,
    members: set<Membership>,
    exceptions: map<SlotKey, OccurrenceException>,
    noteTags: set<NoteTag>,
    seriesTags: set<SeriesTag>,
    templates: set<Template>,
    tags: map<TagId, int>,
    outbox: seq<Event>)

  /** A database session: the tables, and the supply that uuid4() draws from. Every handler
      and job takes the session it runs in; one call is one transaction. */
  class Session {
    var db: Db
    var nextUuid: int

    constructor (db: Db, nextUuid: int)
      ensures this.db == db && this.nextUuid == nextUuid
    {
      this.db, this.nextUuid := db, nextUuid;
    }

    method Uuid() returns (id: int)
      modifies this`nextUuid
      ensures id == old(nextUuid) && nextUuid == id + 1
    {
      id := nextUuid;
      nextUuid := nextUuid + 1;
    }
  }

  const NO_OVERRIDES := Overrides(None, None, None, None, None, None)

  function DueAt(startsAt: Time, offset: int): Time {
    startsAt - offset * MINUTE
  }

  predicate Live(n: Note) {
    n.active && n.deletedAt.None? && n.supersededAt.None? && n.purgedAt.None?
  }

  predicate Open(d: Delivery) {
    d.state.Pending? || d.state.Claimed?
  }

  /** Past the authorization commit. */
  predicate Attempted(d: Delivery) {
    d.state in {AttemptStarted, Sent, Failed, Unknown}
  }

  /** Recorded by a finalizer. */
  predicate Finished(d: Delivery) {
    d.state in {Sent, Failed, Unknown}
  }

  // The CHECK constraint ck_delivery_state_shape.
  predicate Shape(d: Delivery) {
    match d.state
    case Pending =>
      d.claimToken.None? && d.claimExpiresAt.None? && d.authorizedAt.None? && d.recipient.None?
      && d.content.None? && d.resultAt.None? && d.errorCode.None?
    case Claimed =>
      d.claimToken.Some? && d.claimExpiresAt.Some? && d.authorizedAt.None? && d.recipient.None?
      && d.content.None? && d.resultAt.None? && d.errorCode.None?
    case AttemptStarted =>
      d.claimToken.Some? && d.claimExpiresAt.None? && d.authorizedAt.Some? && d.recipient.Some?
      && d.content.Some? && d.resultAt.None? && d.errorCode.None?
    case Sent =>
      FinishedShape(d) && d.errorCode.None?
    case Failed =>
      FinishedShape(d) && d.errorCode.Some?
    case Unknown =>
      FinishedShape(d) && d.errorCode.Some?
    case Missed =>
      SettledShape(d)
    case Cancelled =>
      SettledShape(d)
  }

  predicate FinishedShape(d: Delivery) {
    d.claimToken.Some? && d.claimExpiresAt.None? && d.authorizedAt.Some?
    && (d.recipient.Some? <==> d.content.Some?) && d.resultAt.Some?
  }

  predicate SettledShape(d: Delivery) {
    d.claimToken.None? && d.claimExpiresAt.None? && d.authorizedAt.None? && d.recipient.None?
    && d.content.None? && d.resultAt.Some? && d.errorCode.None?
  }

  function CurrentKey(db: Db, k: RuleKey): DeliveryKey
    requires k in db.rules
  {
    DeliveryKey(k, db.rules[k].cycle)
  }

  function EnabledOffsets(db: Db, n: NoteId): set<int> {
    set k | k in db.rules && k.note == n && db.rules[k].enabled :: k.offset
  }

  function TagsOf(db: Db, n: NoteId): set<TagId> {
    set t | t in db.noteTags && t.note == n :: t.tag
  }
}

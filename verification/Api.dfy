/** Request data, error codes and the checks that handlers share. */
module Api {
  import opened Prelude
  import opened Storage

  datatype ApiError =
    NotFound | ValidationError | VersionConflict | NoteInTrash | NoteNotInTrash | RetentionExpired
  | InvalidTag | InvalidRecurrence | EmptySeries | OccurrenceNotFound | TrashActionNotFound
  | NothingToRestore | TrashInvariantBreach | IndividualRestoreRequired | SeriesNotLeaf
  | TrashActionOverlap | HistoricalReplacement | RecurrenceCollision
    // an exception no handler expects: the transaction is rolled back
  | InternalError

  datatype NoteFields = NoteFields(
    title: string, body: string, startsAt: Time, active: bool, tags: set<TagId>, offsets: set<int>)

  predicate IsSpace(c: char) {
    c in {' ', '\t', '\n', '\r'}
  }

  function StripLeft(s: string): string {
    if s != [] && IsSpace(s[0]) then StripLeft(s[1..]) else s
  }

  function StripRight(s: string): string {
    if s != [] && IsSpace(s[|s| - 1]) then StripRight(s[..|s| - 1]) else s
  }

  function Strip(s: string): string {
    StripRight(StripLeft(s))
  }

  predicate Trimmed(s: string) {
    s != [] ==> !IsSpace(s[0]) && !IsSpace(s[|s| - 1])
  }

  lemma {:induction false} LeftStripped(s: string) returns (before: string)
    ensures s == before + StripLeft(s) && forall c :: c in before ==> IsSpace(c)
    ensures StripLeft(s) != [] ==> !IsSpace(StripLeft(s)[0])
    decreases |s|
  {
    before := [];
    if s != [] && IsSpace(s[0]) {
      var rest := LeftStripped(s[1..]);
      before := [s[0]] + rest;
      assert s == [s[0]] + s[1..];
    }
  }

  lemma {:induction false} RightStripped(s: string) returns (after: string)
    ensures s == StripRight(s) + after && forall c :: c in after ==> IsSpace(c)
    ensures StripRight(s) != [] ==> !IsSpace(StripRight(s)[|StripRight(s)| - 1]) && StripRight(s)[0] == s[0]
    decreases |s|
  {
    after := [];
    if s != [] && IsSpace(s[|s| - 1]) {
      var rest := RightStripped(s[..|s| - 1]);
      after := rest + [s[|s| - 1]];
      assert s == s[..|s| - 1] + [s[|s| - 1]];
    }
  }

  /** Stripping takes white space off both ends, all of it and nothing else. */
  lemma StripExact(s: string) returns (before: string, after: string)
    ensures s == before + Strip(s) + after && Trimmed(Strip(s))
    ensures forall c :: c in before || c in after ==> IsSpace(c)
  {
    before := LeftStripped(s);
    after := RightStripped(StripLeft(s));
  }

  // require_note
  predicate Visible(db: Db, n: NoteId) {
    n in db.notes && db.notes[n].purgedAt.None? && db.notes[n].supersededAt.None?
  }

  function Bumped(db: Db, s: SeriesId): Db
    requires s in db.series
  {
    db.(series := db.series[s := db.series[s].(version := db.series[s].version + 1)])
  }

  // lock_series: a recurring note's writer names the series version it read.
  function LockSeries(db: Db, n: Note, expected: Option<int>): Result<Db, ApiError> {
    if n.seriesId.None? || n.seriesId.value !in db.series then Success(db)
    else if expected.None? then Failure(ValidationError)
    else if db.series[n.seriesId.value].version != expected.value then Failure(VersionConflict)
    else Success(Bumped(db, n.seriesId.value))
  }

  function SeriesTagsOf(db: Db, s: SeriesId): set<TagId> {
    set t | t in db.seriesTags && t.series == s :: t.tag
  }

  function TemplateOffsets(db: Db, s: SeriesId): set<int> {
    set t | t in db.templates && t.series == s :: t.offset
  }

  function Differs<T(==)>(value: T, default_: T): Option<T> {
    if value == default_ then None else Some(value)
  }

  function OverridesOf(db: Db, id: NoteId, s: SeriesId): Overrides
    requires id in db.notes && s in db.series
  {
    var n, series := db.notes[id], db.series[s];
    Overrides(
      Differs(n.title, series.title), Differs(n.body, series.body),
      if n.recurrenceKey == Some(n.startsAt) then None else Some(n.startsAt),
      Differs(n.active, series.active),
      Differs(TagsOf(db, id), SeriesTagsOf(db, s)),
      Differs(EnabledOffsets(db, id), TemplateOffsets(db, s)))
  }

  // set_exception: how an occurrence differs from its series' template.
  function SetException(db: Db, id: NoteId, cancelled: Option<bool>): (db': Db)
    requires id in db.notes
    ensures db' == db.(exceptions := db'.exceptions)
  {
    var n := db.notes[id];
    if n.seriesId.None? || n.recurrenceKey.None? || n.seriesId.value !in db.series then db
    else
      var k := SlotKey(n.seriesId.value, n.recurrenceKey.value);
      var was := if k in db.exceptions then db.exceptions[k].cancelled else false;
      db.(exceptions := db.exceptions[k := OccurrenceException(
            OverridesOf(db, id, n.seriesId.value), if cancelled.Some? then cancelled.value else was)])
  }
}

/** backend/app/api/router.py, list_trash_groups: the trash as a paged list of groups. */
module TrashListing {
  import opened Prelude
  import opened Storage
  import opened Invariants

  /** A row of the listing: a recurring-trash action, a note with the legacy marker, or a note
      trashed on its own. */
  datatype Entry = ActionEntry(action: ActionId) | LegacyEntry(note: NoteId) | OrdinaryEntry(note: NoteId)

  function VisibleTrash(db: Db): set<NoteId> {
    set n | n in db.notes && db.notes[n].deletedAt.Some? && db.notes[n].supersededAt.None? && db.notes[n].purgedAt.None?
  }

  predicate WasMember(db: Db, n: NoteId) {
    exists m :: m in db.members && m.note == n
  }

  function ListedActions(db: Db): set<ActionId> {
    set m | m in db.members && m.action in db.actions && db.actions[m.action].sealed && m.note in db.notes
            && db.notes[m.note].action == Some(m.action) :: m.action
  }

  function LegacyNotes(db: Db): set<NoteId> {
    set n | n in VisibleTrash(db) && db.notes[n].seriesId.Some? && db.notes[n].seriesTrashedAt.Some?
        && !WasMember(db, n)
  }

  function OrdinaryNotes(db: Db): set<NoteId> {
    set n | n in VisibleTrash(db) && db.notes[n].action.None?
            && (db.notes[n].seriesId.None? || db.notes[n].seriesTrashedAt.None? || WasMember(db, n))
  }

  function Entries(db: Db): set<Entry> {
    (set a | a in ListedActions(db) :: ActionEntry(a)) + (set n | n in LegacyNotes(db) :: LegacyEntry(n))
    + (set n | n in OrdinaryNotes(db) :: OrdinaryEntry(n))
  }

  /** The notes behind a row: all members of an action. */
  function Holds(db: Db, e: Entry): set<NoteId> {
    match e
    case ActionEntry(a) => set m | m in db.members && m.action == a && m.note in db.notes :: m.note
    case LegacyEntry(n) => {n}
    case OrdinaryEntry(n) => {n}
  }

  lemma ActionHolds(db: Db, a: ActionId, n: NoteId)
    requires TrashInv(db) && a in ListedActions(db)
    ensures n in Holds(db, ActionEntry(a)) <==> n in VisibleTrash(db) && db.notes[n].action == Some(a)
  {
  }

  /** The row that shows a note. */
  function EntryOf(db: Db, n: NoteId): Entry
    requires n in db.notes
  {
    if db.notes[n].action.Some? then ActionEntry(db.notes[n].action.value)
    else if db.notes[n].seriesId.Some? && db.notes[n].seriesTrashedAt.Some? && !WasMember(db, n) then LegacyEntry(n)
    else OrdinaryEntry(n)
  }

  /** Every note in the visible trash is behind exactly one row, and no other note is. */
  lemma OneEntryEach(db: Db, n: NoteId, e: Entry)
    requires TrashInv(db)
    ensures e in Entries(db) && n in Holds(db, e) <==> n in VisibleTrash(db) && e == EntryOf(db, n)
  {
    hide VisibleTrash;
    InTrash(db, n);
    if n in VisibleTrash(db) && db.notes[n].action.Some? { HeldIsListed(db, n); }
    match e
    case ActionEntry(a) => if a in ListedActions(db) { ActionHolds(db, a, n); }
    case LegacyEntry(_) => NeverHeld(db, n);
    case OrdinaryEntry(_) =>
  }

  /** The list shows a note exactly if it is in the trash, neither replaced nor redacted: under
      its action if one holds it, under the legacy marker if only that does, else on its own. */
  lemma ShownExactly(db: Db, n: NoteId)
    requires TrashInv(db)
    ensures (exists e :: e in Entries(db) && n in Holds(db, e)) <==>
              n in db.notes && db.notes[n].deletedAt.Some? && db.notes[n].supersededAt.None?
              && db.notes[n].purgedAt.None?
    ensures forall e :: e in Entries(db) && n in Holds(db, e) ==>
              && n in db.notes
              && (e.ActionEntry? <==> db.notes[n].action.Some?)
              && (e.ActionEntry? ==> db.notes[n].action == Some(e.action))
              && (e.LegacyEntry? ==> e.note == n && db.notes[n].seriesId.Some? && db.notes[n].seriesTrashedAt.Some?)
              && (e.OrdinaryEntry? ==> e.note == n)
              && (e.OrdinaryEntry? && db.notes[n].seriesId.Some? && db.notes[n].seriesTrashedAt.Some? ==>
                    exists m :: m in db.members && m.note == n)
  {
    hide Entries, Holds, TrashInv;
    InTrash(db, n);
    if n in VisibleTrash(db) { OneEntryEach(db, n, EntryOf(db, n)); }
    forall e | e in Entries(db) && n in Holds(db, e) ensures n in VisibleTrash(db) && e == EntryOf(db, n) {
      OneEntryEach(db, n, e);
    }
  }

  lemma InTrash(db: Db, n: NoteId)
    ensures n in VisibleTrash(db) ==> n in db.notes
  {
  }

  lemma NeverHeld(db: Db, n: NoteId)
    requires TrashInv(db)
    ensures n in db.notes && db.notes[n].action.Some? ==> WasMember(db, n)
  {
  }

  lemma HeldIsListed(db: Db, n: NoteId)
    requires TrashInv(db) && n in db.notes && db.notes[n].action.Some?
    ensures db.notes[n].action.value in ListedActions(db)
  {
  }

  // ---------- counts ----------

  function Total(db: Db, q: seq<Entry>): nat {
    if q == [] then 0 else Total(db, q[..|q| - 1]) + |Holds(db, q[|q| - 1])|
  }

  ghost function Shown(db: Db, q: seq<Entry>): set<NoteId> {
    set e, n | e in q && n in Holds(db, e) :: n
  }

  lemma ShownGrows(db: Db, front: seq<Entry>, last: Entry)
    ensures Shown(db, front + [last]) == Shown(db, front) + Holds(db, last)
  {
  }

  lemma {:induction false} TotalCounts(db: Db, q: seq<Entry>)
    requires TrashInv(db) && Distinct(q) && Elements(q) <= Entries(db)
    ensures Total(db, q) == |Shown(db, q)|
    decreases |q|
  {
    hide Entries, Holds, TrashInv;
    if q == [] {
      assert Shown(db, q) == {};
    } else {
      var front, last := q[..|q| - 1], q[|q| - 1];
      assert q == front + [last];
      assert last in Elements(q) && Elements(front) <= Elements(q);
      TotalCounts(db, front);
      ShownGrows(db, front, last);
      forall n | n in Shown(db, front) ensures n !in Holds(db, last) {
        var e :| e in front && n in Holds(db, e);
        assert e in Elements(q);
        OneEntryEach(db, n, e);
        OneEntryEach(db, n, last);
      }
    }
  }

  // ---------- the order of the rows ----------

  function TrashedAt(db: Db, e: Entry): Time {
    match e
    case ActionEntry(a) => if a in db.actions then db.actions[a].trashedAt else 0
    case LegacyEntry(n) => if n in db.notes && db.notes[n].deletedAt.Some? then db.notes[n].deletedAt.value else 0
    case OrdinaryEntry(n) => if n in db.notes && db.notes[n].deletedAt.Some? then db.notes[n].deletedAt.value else 0
  }

  function Rank(e: Entry): nat {
    match e case ActionEntry(_) => 0 case LegacyEntry(_) => 1 case OrdinaryEntry(_) => 2
  }

  function Id(e: Entry): int {
    match e case ActionEntry(a) => a case LegacyEntry(n) => n case OrdinaryEntry(n) => n
  }

  // The sort key: latest first, then the kind, then the id.
  predicate Precedes(db: Db, x: Entry, y: Entry) {
    || TrashedAt(db, x) > TrashedAt(db, y)
    || (TrashedAt(db, x) == TrashedAt(db, y) && (Rank(x) < Rank(y) || (Rank(x) == Rank(y) && Id(x) < Id(y))))
  }

  ghost predicate Ordered(db: Db, q: seq<Entry>) {
    forall i, j :: 0 <= i < j < |q| ==> Precedes(db, q[i], q[j])
  }

  /** When the notes behind a row went to the trash. */
  predicate WentAt(db: Db, e: Entry, t: Time) {
    match e
    case ActionEntry(a) => a in db.actions && db.actions[a].trashedAt == t
    case LegacyEntry(n) => n in db.notes && db.notes[n].deletedAt == Some(t)
    case OrdinaryEntry(n) => n in db.notes && db.notes[n].deletedAt == Some(t)
  }

  /** The latest rows come first; of rows of one time actions come first, then legacy occurrences,
      then notes, each by their ids. */
  lemma LatestFirst(db: Db, q: seq<Entry>, i: nat, j: nat, t: Time, u: Time)
    requires Ordered(db, q) && i < j < |q| && WentAt(db, q[i], t) && WentAt(db, q[j], u)
    ensures t >= u
    ensures t == u ==> !(q[i].OrdinaryEntry? && !q[j].OrdinaryEntry?) && !(q[i].LegacyEntry? && q[j].ActionEntry?)
    ensures t == u && q[i].ActionEntry? && q[j].ActionEntry? ==> q[i].action < q[j].action
    ensures t == u && q[i].LegacyEntry? && q[j].LegacyEntry? ==> q[i].note < q[j].note
    ensures t == u && q[i].OrdinaryEntry? && q[j].OrdinaryEntry? ==> q[i].note < q[j].note
  {
    assert Precedes(db, q[i], q[j]);
  }

  ghost predicate FullList(db: Db, q: seq<Entry>) {
    Ordered(db, q) && Elements(q) == Entries(db)
  }

  // rows.sort, by insertion
  method Insert(db: Db, q: seq<Entry>, e: Entry) returns (r: seq<Entry>)
    requires Ordered(db, q) && e !in q
    ensures Ordered(db, r) && Elements(r) == Elements(q) + {e}
  {
    hide Precedes, Ordered;
    var i := |q|;
    while i > 0 && !Precedes(db, q[i - 1], e)
      invariant 0 <= i <= |q|
      invariant forall j :: i <= j < |q| ==> Precedes(db, e, q[j])
    {
      i := i - 1;
      assert q[i] in q;
      Comparable(db, e, q[i]);
    }
    r := q[..i] + [e] + q[i..];
    Inserted(db, q, e, i);
  }

  lemma Comparable(db: Db, x: Entry, y: Entry)
    requires x != y
    ensures Precedes(db, x, y) || Precedes(db, y, x)
  {
  }

  lemma Inserted(db: Db, q: seq<Entry>, e: Entry, i: nat)
    requires Ordered(db, q) && i <= |q| && (i > 0 ==> Precedes(db, q[i - 1], e))
    requires forall j :: i <= j < |q| ==> Precedes(db, e, q[j])
    ensures var r := q[..i] + [e] + q[i..]; Ordered(db, r) && Elements(r) == Elements(q) + {e}
  {
    var r := q[..i] + [e] + q[i..];
    assert q == q[..i] + q[i..];
    assert forall x :: x in r <==> x in q || x == e;
    forall j | 0 <= j < i ensures Precedes(db, q[j], e) {
      assert j < i - 1 ==> Precedes(db, q[j], q[i - 1]);
    }
    hide Precedes;
    forall j, k | 0 <= j < k < |r| ensures Precedes(db, r[j], r[k]) {
    }
  }

  method Sort(db: Db, rows: seq<Entry>) returns (q: seq<Entry>)
    requires Distinct(rows)
    ensures Ordered(db, q) && Elements(q) == Elements(rows)
  {
    q := [];
    for i := 0 to |rows|
      invariant Ordered(db, q) && Elements(q) == Elements(rows[..i])
    {
      assert rows[..i + 1] == rows[..i] + [rows[i]];
      assert rows[i] !in rows[..i];
      assert rows[i] !in Elements(q);
      q := Insert(db, q, rows[i]);
    }
    assert rows[..|rows|] == rows;
  }

  /** There is only one such list, so every request for a page cuts the same one. */
  lemma {:induction false} OnlyOneList(db: Db, q: seq<Entry>, r: seq<Entry>)
    requires Ordered(db, q) && Ordered(db, r) && Elements(q) == Elements(r)
    ensures q == r
    decreases |q|
  {
    NoElements(q);
    NoElements(r);
    if q != [] {
      FirstIsLeast(db, q, r);
      FirstIsLeast(db, r, q);
      assert q == [q[0]] + q[1..] && r == [r[0]] + r[1..];
      Rest(db, q);
      Rest(db, r);
      OnlyOneList(db, q[1..], r[1..]);
    }
  }

  lemma NoElements(q: seq<Entry>)
    ensures Elements(q) == {} <==> q == []
  {
    if q != [] { assert q[0] in Elements(q); }
  }

  lemma FirstIsLeast(db: Db, q: seq<Entry>, r: seq<Entry>)
    requires Ordered(db, q) && q != [] && r != [] && Elements(q) == Elements(r)
    ensures q[0] == r[0] || Precedes(db, q[0], r[0])
  {
    assert r[0] in Elements(q);
    var i :| 0 <= i < |q| && q[i] == r[0];
  }

  lemma Rest(db: Db, q: seq<Entry>)
    requires Ordered(db, q) && q != []
    ensures Ordered(db, q[1..]) && Elements(q[1..]) == Elements(q) - {q[0]}
  {
  }

  // ---------- pages ----------

  function Clamp(x: nat, length: nat): nat {
    if x <= length then x else length
  }

  lemma PageBounds(page: nat, size: nat)
    requires page >= 1
    ensures 0 <= (page - 1) * size <= page * size && page * size == (page - 1) * size + size
  {
  }

  // rows[(page - 1) * page_size : page * page_size]
  function Page(q: seq<Entry>, page: nat, size: nat): seq<Entry>
    requires page >= 1
  {
    PageBounds(page, size);
    q[Clamp((page - 1) * size, |q|)..Clamp(page * size, |q|)]
  }

  function Pages(q: seq<Entry>, pages: nat, size: nat): seq<Entry> {
    if pages == 0 then [] else Pages(q, pages - 1, size) + Page(q, pages, size)
  }

  lemma {:induction false} PagesAreAPrefix(q: seq<Entry>, pages: nat, size: nat)
    ensures 0 <= pages * size && Pages(q, pages, size) == q[..Clamp(pages * size, |q|)]
    decreases pages
  {
    if pages > 0 {
      PagesAreAPrefix(q, pages - 1, size);
      PageBounds(pages, size);
    }
  }

  /** A page holds the rows from its offset on, as many as its size or as there are left. */
  lemma PageHolds(q: seq<Entry>, page: nat, size: nat, k: nat)
    requires page >= 1
    ensures |Page(q, page, size)| <= size
    ensures k < |Page(q, page, size)| ==>
              0 <= (page - 1) * size + k < |q| && Page(q, page, size)[k] == q[(page - 1) * size + k]
    ensures k < size && 0 <= (page - 1) * size + k < |q| ==> k < |Page(q, page, size)|
  {
    PageBounds(page, size);
  }

  /** Read one after another, the pages give the whole list, without gap or repetition. */
  lemma PagesConcatenate(q: seq<Entry>, pages: nat, size: nat)
    requires pages * size >= |q|
    ensures Pages(q, pages, size) == q
  {
    PagesAreAPrefix(q, pages, size);
  }

  /** The item shown for a row: how many notes are behind it, and the first of them. */
  datatype Item = Item(entry: Entry, trashedAt: Time, count: nat, preview: NoteId)

  function KeyOf(db: Db, n: NoteId): Time {
    if n in db.notes && db.notes[n].recurrenceKey.Some? then db.notes[n].recurrenceKey.value else 0
  }

  /** ORDER BY recurrence_key, id: the first of the notes. */
  predicate IsFirst(db: Db, ids: set<NoteId>, n: NoteId) {
    n in ids && forall m :: m in ids ==> KeyOf(db, n) < KeyOf(db, m) || (KeyOf(db, n) == KeyOf(db, m) && n <= m)
  }

  /** So the preview of a row of occurrences is the earliest of them. */
  lemma EarliestIsPreview(db: Db, ids: set<NoteId>, n: NoteId, m: NoteId)
    requires IsFirst(db, ids, n) && m in ids && m in db.notes && db.notes[m].recurrenceKey.Some?
    requires n in db.notes && db.notes[n].recurrenceKey.Some?
    ensures db.notes[n].recurrenceKey.value <= db.notes[m].recurrenceKey.value
    ensures db.notes[n].recurrenceKey == db.notes[m].recurrenceKey ==> n <= m
  {
  }

  predicate IsItem(db: Db, e: Entry, item: Item) {
    && item.entry == e && item.trashedAt == TrashedAt(db, e) && item.count == |Holds(db, e)|
    && IsFirst(db, Holds(db, e), item.preview)
  }

  lemma RowsHoldNotes(db: Db, e: Entry)
    requires e in Entries(db)
    ensures Holds(db, e) != {}
  {
    if e.ActionEntry? {
      var m :| m in db.members && m.action == e.action && m.note in db.notes
          && db.notes[m.note].action == Some(m.action);
      assert m.note in Holds(db, e);
    } else { assert e.note in Holds(db, e); }
  }

  // The item of one selected row.
  method ShowRow(db: Db, e: Entry) returns (item: Item)
    requires e in Entries(db)
    ensures IsItem(db, e, item)
  {
    hide Entries, TrashedAt;
    RowsHoldNotes(db, e);
    var members := Holds(db, e);
    var first := First(db, members);
    item := Item(e, TrashedAt(db, e), |members|, first);
  }

  method First(db: Db, ids: set<NoteId>) returns (n: NoteId)
    requires ids != {}
    ensures IsFirst(db, ids, n)
  {
    NonEmpty(ids);
    ghost var some :| some in ids;
    var keys := set m | m in ids :: KeyOf(db, m);
    assert KeyOf(db, some) in keys;
    var key := Least(keys);
    ghost var one :| one in ids && KeyOf(db, one) == key;
    var firsts := set m | m in ids && KeyOf(db, m) == key;
    assert one in firsts;
    n := Least(firsts);
    forall m | m in ids ensures KeyOf(db, n) < KeyOf(db, m) || (KeyOf(db, n) == KeyOf(db, m) && n <= m) {
      assert KeyOf(db, m) in keys;
      assert KeyOf(db, m) == key ==> m in firsts;
    }
  }

  ghost predicate IsPage(db: Db, items: seq<Item>, rows: seq<Entry>, page: nat, size: nat)
    requires page >= 1
  {
    && FullList(db, rows) && |items| == |Page(rows, page, size)|
    && (forall i :: 0 <= i < |items| ==> IsItem(db, Page(rows, page, size)[i], items[i]))
  }

  // lines 668-771
  method ListTrashGroups(db: Db, page: nat, size: nat) returns (items: seq<Item>, total: nat)
    requires page >= 1 && size >= 1
    ensures total == |Entries(db)|
    ensures exists rows :: IsPage(db, items, rows, page, size)
  {
    hide Entries, Holds, TrashedAt, IsItem;
    var unsorted := Listing(Entries(db));
    var rows := Sort(db, unsorted);
    total := |rows|;
    OrderedIsDistinct(db, rows);
    CountDistinct(rows);
    var selected := Page(rows, page, size);
    items := [];
    for i := 0 to |selected|
      invariant |items| == i
      invariant forall j :: 0 <= j < i ==> IsItem(db, selected[j], items[j])
    {
      assert selected[i] in Elements(rows);
      var item := ShowRow(db, selected[i]);
      items := items + [item];
    }
    assert IsPage(db, items, rows, page, size);
  }

  lemma OrderedIsDistinct(db: Db, q: seq<Entry>)
    requires Ordered(db, q)
    ensures Distinct(q)
  {
  }

  /** The listing partitions the visible trash: the counts of all its rows add up to it. */
  lemma ListingPartitions(db: Db, q: seq<Entry>)
    requires TrashInv(db) && FullList(db, q)
    ensures Shown(db, q) == VisibleTrash(db) && Total(db, q) == |VisibleTrash(db)|
    ensures forall e, f, n :: e in q && f in q && n in Holds(db, e) && n in Holds(db, f) ==> e == f
  {
    hide Entries, Holds, TrashInv, VisibleTrash;
    OrderedIsDistinct(db, q);
    TotalCounts(db, q);
    forall n ensures n in Shown(db, q) <==> n in VisibleTrash(db) {
      if n in VisibleTrash(db) {
        InTrash(db, n);
        OneEntryEach(db, n, EntryOf(db, n));
        assert EntryOf(db, n) in Elements(q);
      }
      if n in Shown(db, q) { var e :| e in q && n in Holds(db, e); assert e in Elements(q); OneEntryEach(db, n, e); }
    }
    forall e, f, n | e in q && f in q && n in Holds(db, e) && n in Holds(db, f) ensures e == f {
      assert e in Elements(q) && f in Elements(q);
      OneEntryEach(db, n, e);
      OneEntryEach(db, n, f);
    }
  }
}

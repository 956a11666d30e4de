/** Series split histories. A lineage is a finite path from its root to its open leaf. */
module Lineage {
  import opened Prelude
  import opened Storage

  type SeriesTable = map<SeriesId, Series>

  /** The links of one series: a root names itself as the lineage; a successor shares the
      lineage of a closed predecessor; exactly the closed series have a successor. */
  ghost predicate Linked(t: SeriesTable, s: SeriesId)
    requires s in t
  {
    && (match t[s].predecessor
        case None => t[s].lineage == s
        case Some(p) => p in t && t[p].lineage == t[s].lineage && t[p].splitBoundary.Some?)
    && (t[s].splitBoundary.Some? ==> exists x :: Follows(t, x, s))
  }

  predicate Follows(t: SeriesTable, x: SeriesId, s: SeriesId) {
    x in t && t[x].predecessor == Some(s)
  }

  ghost predicate Ranked(t: SeriesTable, rank: map<SeriesId, nat>) {
    && rank.Keys == t.Keys
    && (forall s, p :: s in t && p in t && t[s].predecessor == Some(p) ==> rank[p] < rank[s])
  }

  ghost predicate LineageInv(t: SeriesTable) {
    && (forall s :: s in t ==> Linked(t, s))
    && (forall x, y, s :: Follows(t, x, s) && Follows(t, y, s) ==> x == y)
    && (exists rank :: Ranked(t, rank))
  }

  predicate SameLinks(s: Series, s': Series) {
    s'.lineage == s.lineage && s'.predecessor == s.predecessor && s'.splitBoundary == s.splitBoundary
  }

  /** Anything but a split or a creation leaves the lineages as they are. */
  lemma SameLinksKeepLineage(t: SeriesTable, t': SeriesTable)
    requires LineageInv(t) && t'.Keys == t.Keys
    requires forall s :: s in t ==> SameLinks(t[s], t'[s])
    ensures LineageInv(t')
  {
    forall x, s ensures Follows(t', x, s) <==> Follows(t, x, s) {
      if x in t { assert SameLinks(t[x], t'[x]); }
    }
    forall s | s in t' ensures Linked(t', s) {
      assert Linked(t, s) && SameLinks(t[s], t'[s]);
      if t[s].predecessor.Some? { assert SameLinks(t[t[s].predecessor.value], t'[t[s].predecessor.value]); }
      if t'[s].splitBoundary.Some? {
        var x :| Follows(t, x, s);
        assert Follows(t', x, s);
      }
    }
    var rank :| Ranked(t, rank);
    assert Ranked(t', rank) by {
      forall s, p | s in t' && p in t' && t'[s].predecessor == Some(p) ensures rank[p] < rank[s] {
        assert SameLinks(t[s], t'[s]);
      }
    }
  }

  /** A new series of its own. */
  lemma RootKeepsLineage(t: SeriesTable, s: SeriesId, row: Series)
    requires LineageInv(t) && s !in t
    requires row.predecessor.None? && row.lineage == s && row.splitBoundary.None?
    ensures LineageInv(t[s := row])
  {
    var t' := t[s := row];
    forall x, y ensures Follows(t', x, y) <==> Follows(t, x, y) {
    }
    forall x | x in t' ensures Linked(t', x) {
      if x != s {
        assert Linked(t, x);
        if t[x].splitBoundary.Some? { var y :| Follows(t, y, x); assert Follows(t', y, x); }
      }
    }
    var rank :| Ranked(t, rank);
    assert Ranked(t', rank[s := 0]) by {
      forall x, p | x in t' && p in t' && t'[x].predecessor == Some(p) ensures rank[s := 0][p] < rank[s := 0][x] {
        if p == s { assert Linked(t, x); }
      }
    }
  }

  /** A split closes an open leaf and appends its only successor. */
  lemma SplitKeepsLineage(t: SeriesTable, old_: SeriesId, closed: Series, s: SeriesId, row: Series)
    requires LineageInv(t) && old_ in t && s !in t
    requires t[old_].splitBoundary.None? && (forall x :: !Follows(t, x, old_))
    requires closed.lineage == t[old_].lineage && closed.predecessor == t[old_].predecessor
    requires closed.splitBoundary.Some?
    requires row.predecessor == Some(old_) && row.lineage == t[old_].lineage && row.splitBoundary.None?
    ensures LineageInv(t[old_ := closed][s := row])
  {
    var t' := t[old_ := closed][s := row];
    forall x, y ensures Follows(t', x, y) <==> Follows(t, x, y) || (x == s && y == old_) {
    }
    forall x | x in t' ensures Linked(t', x) {
      if x == old_ {
        assert Follows(t', s, x) && Linked(t, x);
      } else if x != s {
        assert Linked(t, x);
        if t[x].splitBoundary.Some? { var y :| Follows(t, y, x); assert Follows(t', y, x); }
      }
    }
    forall x, y, z | Follows(t', x, z) && Follows(t', y, z) ensures x == y {
      assert Follows(t, x, z) || x == s;
    }
    var rank :| Ranked(t, rank);
    var rank' := rank[s := rank[old_] + 1];
    assert Ranked(t', rank') by {
      forall x, p | x in t' && p in t' && t'[x].predecessor == Some(p) ensures rank'[p] < rank'[x] {
        if x != s {
          assert Linked(t, x);
        }
      }
    }
  }

  // ---------- a lineage is a path ----------

  /** The k-th predecessor of a series. */
  function Up(t: SeriesTable, s: SeriesId, k: nat): Option<SeriesId>
    decreases k
  {
    if k == 0 then Some(s)
    else if s in t && t[s].predecessor.Some? then Up(t, t[s].predecessor.value, k - 1)
    else None
  }

  lemma {:induction false} UpIsOlder(t: SeriesTable, rank: map<SeriesId, nat>, s: SeriesId, k: nat)
    requires LineageInv(t) && Ranked(t, rank) && s in t && Up(t, s, k).Some?
    ensures Up(t, s, k).value in t && t[Up(t, s, k).value].lineage == t[s].lineage
    ensures k > 0 ==> rank[Up(t, s, k).value] < rank[s]
    decreases k
  {
    if k > 0 {
      assert Linked(t, s);
      UpIsOlder(t, rank, t[s].predecessor.value, k - 1);
    }
  }

  /** Predecessor links never lead back to where they started, and stay in the lineage. */
  lemma NoCycle(t: SeriesTable, s: SeriesId, k: nat)
    requires LineageInv(t) && s in t && Up(t, s, k).Some?
    ensures Up(t, s, k).value in t && t[Up(t, s, k).value].lineage == t[s].lineage
    ensures k > 0 ==> Up(t, s, k) != Some(s)
  {
    var rank :| Ranked(t, rank);
    UpIsOlder(t, rank, s, k);
  }

  lemma LinkOf(t: SeriesTable, rank: map<SeriesId, nat>, s: SeriesId)
    requires LineageInv(t) && Ranked(t, rank) && s in t
    ensures s in rank && rank[s] >= 0
    ensures t[s].predecessor.None? ==> t[s].lineage == s
    ensures t[s].predecessor.Some? ==>
              var p := t[s].predecessor.value;
              p in t && t[p].lineage == t[s].lineage && p in rank && 0 <= rank[p] < rank[s]
  {
  }

  lemma {:induction false} ReachesRoot(t: SeriesTable, rank: map<SeriesId, nat>, s: SeriesId) returns (k: nat)
    requires LineageInv(t) && Ranked(t, rank) && s in t
    ensures Up(t, s, k) == Some(t[s].lineage) && t[s].lineage in t && t[t[s].lineage].predecessor.None?
    decreases rank[s]
  {
    hide LineageInv, Ranked;
    LinkOf(t, rank, s);
    if t[s].predecessor.None? { k := 0; }
    else {
      var above := ReachesRoot(t, rank, t[s].predecessor.value);
      k := above + 1;
    }
  }

  lemma {:induction false} UpBelow(t: SeriesTable, s: SeriesId, k: nat) returns (x: SeriesId)
    requires LineageInv(t) && s in t && k > 0 && Up(t, s, k).Some?
    ensures Up(t, s, k - 1) == Some(x) && Follows(t, x, Up(t, s, k).value)
    decreases k
  {
    if k == 1 { x := s; }
    else {
      assert Linked(t, s);
      x := UpBelow(t, t[s].predecessor.value, k - 1);
    }
  }

  lemma OneFollower(t: SeriesTable, x: SeriesId, y: SeriesId, s: SeriesId)
    requires LineageInv(t) && Follows(t, x, s) && Follows(t, y, s)
    ensures x == y
  {
  }

  lemma {:induction false} SharedAncestor(t: SeriesTable, s: SeriesId, u: SeriesId, i: nat, j: nat) returns (k: nat)
    requires LineageInv(t) && s in t && u in t && Up(t, s, i).Some? && Up(t, s, i) == Up(t, u, j)
    ensures Up(t, s, k) == Some(u) || Up(t, u, k) == Some(s)
    decreases i
  {
    hide LineageInv;
    if i == 0 { k := j; }
    else if j == 0 { k := i; }
    else {
      var x := UpBelow(t, s, i);
      var y := UpBelow(t, u, j);
      OneFollower(t, x, y, Up(t, s, i).value);
      k := SharedAncestor(t, s, u, i - 1, j - 1);
    }
  }

  /** Every lineage is a finite path: of two of its series one is an ancestor of the other, all
      descend from the series the lineage is named after, and a series is closed exactly when
      it has a successor. */
  lemma LineageIsPath(t: SeriesTable, s: SeriesId, u: SeriesId)
    requires LineageInv(t) && s in t && u in t
    ensures t[s].lineage == t[u].lineage <==> exists k :: Up(t, s, k) == Some(u) || Up(t, u, k) == Some(s)
    ensures exists k :: Up(t, s, k) == Some(t[s].lineage)
    ensures t[s].splitBoundary.Some? <==> exists x :: Follows(t, x, s)
  {
    var rank :| Ranked(t, rank);
    var i := ReachesRoot(t, rank, s);
    var j := ReachesRoot(t, rank, u);
    if t[s].lineage == t[u].lineage {
      var k := SharedAncestor(t, s, u, i, j);
    }
    forall k | Up(t, s, k) == Some(u) || Up(t, u, k) == Some(s) ensures t[s].lineage == t[u].lineage {
      if Up(t, s, k) == Some(u) { UpIsOlder(t, rank, s, k); } else { UpIsOlder(t, rank, u, k); }
    }
    assert Linked(t, s);
    forall x | Follows(t, x, s) ensures t[s].splitBoundary.Some? { assert Linked(t, x); }
  }
}

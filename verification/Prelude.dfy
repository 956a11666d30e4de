/** Small vocabulary shared by every module: optional values, results and
    listings of finite sets (the rows of a query in some order). */
module Prelude {

  datatype Option<+T> = None | Some(value: T)

  datatype Result<+T, +E> = Success(value: T) | Failure(error: E)

  ghost predicate Distinct<T>(q: seq<T>) {
    forall i, j :: 0 <= i < j < |q| ==> q[i] != q[j]
  }

  function Elements<T>(q: seq<T>): set<T> {
    set x | x in q
  }

  /** The rows of an unordered query: every element of `s`, once. */
  method Listing<T(==)>(s: set<T>) returns (q: seq<T>)
    ensures Distinct(q) && Elements(q) == s && |q| == |s|
  {
    q := [];
    var rest := s;
    while rest != {}
      invariant rest <= s
      invariant Distinct(q)
      invariant forall x :: x in q <==> x in s - rest
      invariant |q| + |rest| == |s|
      decreases rest
    {
      var x :| x in rest;
      rest := rest - {x};
      assert x !in q;
      q := q + [x];
    }
  }

  lemma NonEmpty(s: set<int>)
    requires s != {}
    ensures exists x :: x in s
  {
    assert (forall x: int :: x !in s) ==> s == {};
  }

  predicate IsLeast(x: int, s: set<int>) {
    x in s && forall y :: y in s ==> x <= y
  }

  lemma {:induction false} LeastExists(s: set<int>)
    requires s != {}
    ensures exists x :: IsLeast(x, s)
    decreases s
  {
    NonEmpty(s);
    var x :| x in s;
    if s != {x} {
      LeastExists(s - {x});
      var m :| IsLeast(m, s - {x});
      var least := if x <= m then x else m;
      forall y | y in s ensures least <= y { assert y == x || y in s - {x}; }
      assert IsLeast(least, s);
    } else {
      assert IsLeast(x, s);
    }
  }

  function Least(s: set<int>): (least: int)
    requires s != {}
    ensures IsLeast(least, s)
  {
    LeastExists(s);
    var x :| IsLeast(x, s);
    x
  }

  lemma {:induction false} CountDistinct<T>(q: seq<T>)
    requires Distinct(q)
    ensures |Elements(q)| == |q|
  {
    if q == [] {
      assert Elements(q) == {};
    } else {
      var n := |q| - 1;
      var front, last := q[..n], q[n];
      assert q == front + [last];
      assert last !in front;
      CountDistinct(front);
      assert Elements(q) == Elements(front) + {last};
    }
  }

  lemma TakenAll<T>(a: set<T>, b: set<T>)
    requires a <= b && |a| >= |b|
    ensures a == b
  {
    assert |b - a| == |b| - |a|;
    assert b == a + (b - a);
  }

  // ---------- ORDER BY … LIMIT ----------

  function AtMost(limit: nat, available: nat): nat {
    if available < limit then available else limit
  }

  /** `q` holds as many of the ranked rows as the limit allows, each once, in the order of their
      ranks, and no row left out ranks before a row taken. */
  ghost predicate FirstOf<K>(q: seq<K>, rank: map<K, int>, limit: nat) {
    && Distinct(q) && (forall x :: x in q ==> x in rank) && |q| == AtMost(limit, |rank.Keys|)
    && InOrder(q, rank)
    && (forall x, y :: x in q && y in rank && y !in q ==> rank[x] <= rank[y])
  }

  ghost predicate InOrder<K>(q: seq<K>, rank: map<K, int>) {
    forall i, j :: 0 <= i < j < |q| && q[i] in rank && q[j] in rank ==> rank[q[i]] <= rank[q[j]]
  }

  lemma {:induction false} FirstExists<K>(rank: map<K, int>, s: set<K>)
    requires s != {} && s <= rank.Keys
    ensures exists x :: x in s && forall y :: y in s ==> rank[x] <= rank[y]
    decreases s
  {
    var x :| x in s;
    if s != {x} {
      FirstExists(rank, s - {x});
      var m :| m in s - {x} && forall y :: y in s - {x} ==> rank[m] <= rank[y];
      var best := if rank[x] <= rank[m] then x else m;
      assert forall y :: y in s ==> rank[best] <= rank[y];
    }
  }

  /** The rows of a bounded, ordered query. */
  method SelectFirst<K(==)>(rank: map<K, int>, limit: nat) returns (q: seq<K>)
    ensures FirstOf(q, rank, limit)
  {
    var rest := rank.Keys;
    q := [];
    while |q| < limit && rest != {}
      invariant Distinct(q) && rest <= rank.Keys && InOrder(q, rank)
      invariant forall x :: x in q <==> x in rank.Keys - rest
      invariant |q| + |rest| == |rank.Keys| && |q| <= limit
      invariant forall x, y :: x in q && y in rest ==> rank[x] <= rank[y]
      decreases rest
    {
      FirstExists(rank, rest);
      var x :| x in rest && forall y :: y in rest ==> rank[x] <= rank[y];
      rest := rest - {x};
      assert x !in q;
      q := q + [x];
    }
  }
}

/** frontend/src/realtime/use-realtime.ts: the window of event ids a client remembers. */
module Realtime {
  import opened Prelude

  const SEEN_LIMIT: nat := 1000

  /** `order` remembers the ids of the last applied events, oldest first. */
  datatype Window = Window(seen: set<string>, order: seq<string>)

  const FRESH := Window({}, [])

  /** The window after a message, and whether the client applied the event. An empty id is
      dropped from `order` but never from `seen`: `if(oldest)` is false for it. */
  function Receive(w: Window, id: string): (Window, bool) {
    if id in w.seen then (w, false)
    else
      var order := w.order + [id];
      if |order| > SEEN_LIMIT then
        (Window(if order[0] != "" then w.seen + {id} - {order[0]} else w.seen + {id}, order[1..]), true)
      else (Window(w.seen + {id}, order), true)
  }

  /** The closure state of the hook. */
  class Client {
    var seen: set<string>
    var order: seq<string>
    ghost var applied: seq<string>

    constructor ()
      ensures Seen() == FRESH && applied == []
    {
      seen, order, applied := {}, [], [];
    }

    function Seen(): Window
      reads this
    {
      Window(seen, order)
    }

    // socket.onmessage
    method OnMessage(eventId: string) returns (apply: bool)
      modifies this
      ensures (Seen(), apply) == Receive(old(Seen()), eventId)
      ensures applied == old(applied) + if apply then [eventId] else []
    {
      if eventId in seen { return false; }
      seen := seen + {eventId};
      order := order + [eventId];
      if |order| > SEEN_LIMIT {
        var oldest := order[0];
        order := order[1..];
        if oldest != "" { seen := seen - {oldest}; }
      }
      applied := applied + [eventId];
      apply := true;
    }
  }

  /** The ids applied while `messages` arrive, and the window afterwards. */
  function Deliver(w: Window, messages: seq<string>): (Window, seq<string>)
    decreases |messages|
  {
    if messages == [] then (w, [])
    else
      var (before, applied) := Deliver(w, messages[..|messages| - 1]);
      var (after, apply) := Receive(before, messages[|messages| - 1]);
      (after, if apply then applied + [messages[|messages| - 1]] else applied)
  }

  /** `seen` is exactly the queue, but for an empty id that has left the queue. */
  ghost predicate WindowInv(w: Window) {
    && Distinct(w.order) && |w.order| <= SEEN_LIMIT
    && (w.seen == Elements(w.order) || w.seen == Elements(w.order) + {""})
  }

  lemma Shift(q: seq<string>)
    requires q != [] && Distinct(q)
    ensures Distinct(q[1..]) && q[0] !in q[1..] && Elements(q[1..]) == Elements(q) - {q[0]}
  {
  }

  lemma Push(q: seq<string>, id: string)
    requires Distinct(q) && id !in q
    ensures Distinct(q + [id]) && Elements(q + [id]) == Elements(q) + {id}
  {
  }

  lemma ReceiveKeeps(w: Window, id: string)
    requires WindowInv(w)
    ensures WindowInv(Receive(w, id).0) && id in Receive(w, id).0.seen
  {
    hide Distinct, Elements;
    SeenHas(w, id);
    if id !in w.seen {
      Push(w.order, id);
      Shift(w.order + [id]);
    }
  }

  lemma SeenHas(w: Window, id: string)
    requires WindowInv(w)
    ensures id in w.order ==> id in w.seen
    ensures forall x :: x in Elements(w.order) <==> x in w.order
    ensures w.order != [] ==> w.order[0] in w.order
    ensures (w.order + [id])[0] == id ==> w.order == [] || id in w.order
  {
  }

  /** Without an empty id the window is exact, and stays exact. */
  predicate ExactWindow(w: Window) {
    w.seen == Elements(w.order) && "" !in w.order
  }

  lemma ReceiveExact(w: Window, id: string)
    requires WindowInv(w) && ExactWindow(w) && id != ""
    ensures ExactWindow(Receive(w, id).0)
  {
    if id !in w.seen {
      Push(w.order, id);
      Shift(w.order + [id]);
    }
  }

  lemma {:induction false} DeliverKeeps(w: Window, messages: seq<string>)
    requires WindowInv(w)
    ensures WindowInv(Deliver(w, messages).0)
    decreases |messages|
  {
    if messages != [] {
      DeliverKeeps(w, messages[..|messages| - 1]);
      ReceiveKeeps(Deliver(w, messages[..|messages| - 1]).0, messages[|messages| - 1]);
    }
  }

  /** With no empty id among the messages, the seen set always equals the queue. */
  lemma {:induction false} SeenIsQueue(messages: seq<string>)
    requires "" !in messages
    ensures ExactWindow(Deliver(FRESH, messages).0)
    decreases |messages|
  {
    if messages != [] {
      var front := messages[..|messages| - 1];
      SeenIsQueue(front);
      DeliverKeeps(FRESH, front);
      ReceiveExact(Deliver(FRESH, front).0, messages[|messages| - 1]);
    }
  }

  /** The set parts from the queue exactly when a full window evicts an empty id. */
  lemma BreaksOnEmptyEviction(w: Window, id: string)
    requires WindowInv(w) && w.seen == Elements(w.order)
    ensures var w' := Receive(w, id).0;
            w'.seen == Elements(w'.order) <==>
              !(id !in w.seen && |w.order| == SEEN_LIMIT && w.order[0] == "")
  {
    hide Distinct, Elements;
    SeenHas(w, id);
    if id !in w.seen {
      Push(w.order, id);
      Shift(w.order + [id]);
      SeenHas(Receive(w, id).0, id);
    }
  }

  /** The last thousand of the applied ids. */
  function Tail(applied: seq<string>): seq<string> {
    if |applied| <= SEEN_LIMIT then applied else applied[|applied| - SEEN_LIMIT..]
  }

  function Empty(applied: seq<string>): set<string> {
    if "" in applied then {""} else {}
  }

  /** What the window is after a delivery: the queue holds the last thousand applied ids, the set
      these and the empty id if it was ever applied. */
  ghost predicate WindowOf(w: Window, applied: seq<string>) {
    && WindowInv(w) && w.order == Tail(applied) && w.seen == Elements(w.order) + Empty(applied)
    && (forall i, j :: 0 <= i < j < |applied| && applied[i] == "" ==> applied[j] != "")
  }

  lemma ReceiveWindow(w: Window, applied: seq<string>, id: string)
    requires WindowOf(w, applied)
    ensures var (w', apply) := Receive(w, id); WindowOf(w', if apply then applied + [id] else applied)
  {
    ReceiveKeeps(w, id);
    if id !in w.seen {
      var more, order := applied + [id], w.order + [id];
      SeenHas(w, id);
      Push(w.order, id);
      Shift(order);
      assert "" in more <==> "" in applied || id == "";
      if |applied| < SEEN_LIMIT { assert Tail(more) == order; }
      else { assert Tail(more) == order[1..]; }
      assert order[0] == "" ==> "" in more by { TailHas(applied); }
    }
  }

  lemma TailHas(applied: seq<string>)
    ensures forall x :: x in Tail(applied) ==> x in applied
  {
  }

  lemma {:induction false} DeliverWindow(messages: seq<string>)
    ensures WindowOf(Deliver(FRESH, messages).0, Deliver(FRESH, messages).1)
    decreases |messages|
  {
    hide WindowOf;
    if messages == [] { FreshWindow(); }
    else {
      var front := messages[..|messages| - 1];
      DeliverWindow(front);
      ReceiveWindow(Deliver(FRESH, front).0, Deliver(FRESH, front).1, messages[|messages| - 1]);
    }
  }

  lemma FreshWindow()
    ensures WindowOf(FRESH, [])
  {
  }

  /** An empty id was applied, and at least a thousand events after it. */
  ghost predicate EmptyLeftBehind(applied: seq<string>) {
    exists k :: 0 <= k < |applied| - SEEN_LIMIT && applied[k] == ""
  }

  /** Over every delivery, set and queue part exactly when an empty id was applied and at least a
      thousand events were applied after it. */
  lemma PartedExactly(messages: seq<string>)
    ensures var (w, applied) := Deliver(FRESH, messages);
            w.seen != Elements(w.order) <==> EmptyLeftBehind(applied)
  {
    hide Deliver, WindowOf;
    var (w, applied) := Deliver(FRESH, messages);
    DeliverWindow(messages);
    EmptyIsExtra(w, applied);
    InTail(applied);
  }

  lemma EmptyIsExtra(w: Window, applied: seq<string>)
    requires WindowOf(w, applied)
    ensures w.seen != Elements(w.order) <==> "" in applied && "" !in Tail(applied)
    ensures forall i, j :: 0 <= i < j < |applied| && applied[i] == "" ==> applied[j] != ""
  {
    assert "" in Elements(w.order) <==> "" in w.order;
    if "" !in applied {
      TailHas(applied);
      assert w.seen == Elements(w.order);
    }
  }

  /** The empty id, applied once at most, is in the tail or left behind. */
  lemma InTail(applied: seq<string>)
    requires forall i, j :: 0 <= i < j < |applied| && applied[i] == "" ==> applied[j] != ""
    ensures EmptyLeftBehind(applied) <==> "" in applied && "" !in Tail(applied)
  {
    hide Tail;
    if EmptyLeftBehind(applied) {
      var k :| 0 <= k < |applied| - SEEN_LIMIT && applied[k] == "";
      PastTail(applied, k);
    }
    if "" in applied && "" !in Tail(applied) {
      var k :| 0 <= k < |applied| && applied[k] == "";
      PastTail(applied, k);
    }
  }

  lemma PastTail(applied: seq<string>, k: nat)
    requires k < |applied| && applied[k] == "" && forall j :: k < j < |applied| ==> applied[j] != ""
    ensures k < |applied| - SEEN_LIMIT <==> "" !in Tail(applied)
  {
    var rest := |applied| - |Tail(applied)|;
    assert forall i :: 0 <= i < |Tail(applied)| ==> Tail(applied)[i] == applied[rest + i];
    if k >= rest { assert Tail(applied)[k - rest] == ""; }
  }

  lemma DeliverLast(w: Window, front: seq<string>, last: string)
    ensures Deliver(w, front + [last]).0 == Receive(Deliver(w, front).0, last).0
  {
  }

  lemma {:induction false} Filling(ids: seq<string>)
    requires Distinct(ids) && |ids| <= SEEN_LIMIT
    ensures Deliver(FRESH, ids).0 == Window(Elements(ids), ids)
    decreases |ids|
  {
    hide Deliver, Distinct;
    if ids == [] {
      assert Elements(ids) == {};
      NothingDelivered(ids);
    } else {
      var front, last := ids[..|ids| - 1], ids[|ids| - 1];
      assert ids == front + [last];
      FrontDistinct(front, last);
      Filling(front);
      DeliverLast(FRESH, front, last);
      Push(front, last);
    }
  }

  lemma NothingDelivered(ids: seq<string>)
    requires ids == []
    ensures Deliver(FRESH, ids).0 == Window({}, [])
  {
  }

  lemma FrontDistinct(front: seq<string>, last: string)
    requires Distinct(front + [last])
    ensures Distinct(front) && last !in front && last !in Elements(front)
  {
    var q := front + [last];
    assert forall i :: 0 <= i < |front| ==> q[i] == front[i] && q[i] != q[|front|];
  }

  /** It happens: an empty id and a thousand others leave the empty id in the set for good. */
  lemma EmptyIdEscapes(ids: seq<string>)
    requires Distinct(ids) && "" !in ids && |ids| == SEEN_LIMIT
    ensures var w := Deliver(FRESH, [""] + ids).0; w.seen != Elements(w.order)
  {
    hide Deliver;
    var front, last := [""] + ids[..|ids| - 1], ids[|ids| - 1];
    assert [""] + ids == front + [last];
    assert Distinct([""] + ids);
    FrontDistinct(front, last);
    Filling(front);
    DeliverLast(FRESH, front, last);
    BreaksOnEmptyEviction(Window(Elements(front), front), last);
  }

  // ---------- how soon an event can be applied again ----------

  /** Right after `x` was applied and `applied` more events were: `x` is still remembered, or a
      thousand different ids went by. */
  ghost predicate Remembered(w0: Window, w: Window, x: string, applied: seq<string>) {
    && Distinct(applied) && x !in applied && x in w.seen
    && exists k :: 0 <= k < |w0.order| && w.order == w0.order[k..] + applied
  }

  ghost predicate WentBy(x: string, applied: seq<string>) {
    exists a, b :: 0 <= a <= b <= |applied| && b - a == SEEN_LIMIT && Distinct(applied[a..b]) && x !in applied[a..b]
  }

  lemma DropFirst<T>(q: seq<T>, k: nat, r: seq<T>, x: T)
    requires k < |q|
    ensures (q[k..] + r + [x])[1..] == q[k + 1..] + (r + [x])
  {
  }

  /** `x`, last in the queue at first, comes before everything applied since. */
  lemma Behind(w0: Window, w: Window, x: string, applied: seq<string>, k: nat)
    requires w0.order != [] && x == w0.order[|w0.order| - 1] && k < |w0.order| && w.order == w0.order[k..] + applied
    ensures x in w.order && forall y :: y in applied ==> y in w.order
    ensures k + 1 < |w0.order| ==> x in w0.order[k + 1..]
    ensures k + 1 == |w0.order| ==> |w.order| == |applied| + 1
  {
  }

  lemma OneMoreSeen(w0: Window, w: Window, x: string, applied: seq<string>, id: string)
    requires WindowInv(w0) && w0.order != [] && x == w0.order[|w0.order| - 1] && WindowInv(w)
    requires Remembered(w0, w, x, applied)
    ensures var (w', apply) := Receive(w, id); var more := if apply then applied + [id] else applied;
            Remembered(w0, w', x, more) || WentBy(x, more)
  {
    hide Receive, WindowInv;
    var (w', apply) := Receive(w, id);
    Queue(w, id);
    if apply {
      var k: nat :| 0 <= k < |w0.order| && w.order == w0.order[k..] + applied;
      Behind(w0, w, x, applied, k);
      MoreApplied(applied, x, id);
      if |w.order| + 1 > SEEN_LIMIT && k + 1 == |w0.order| { LongEnough(x, applied + [id]); }
      else { StillBehind(w0, w, w', x, applied, id, k); }
    }
  }

  lemma MoreApplied(applied: seq<string>, x: string, id: string)
    requires Distinct(applied) && x !in applied && id != x && id !in applied
    ensures Distinct(applied + [id]) && x !in applied + [id]
  {
  }

  lemma LongEnough(x: string, applied: seq<string>)
    requires |applied| == SEEN_LIMIT && Distinct(applied) && x !in applied
    ensures WentBy(x, applied)
  {
    assert applied[0..SEEN_LIMIT] == applied;
  }

  lemma StillBehind(w0: Window, w: Window, w': Window, x: string, applied: seq<string>, id: string, k: nat)
    requires k < |w0.order| && w.order == w0.order[k..] + applied && x == w0.order[|w0.order| - 1]
    requires w'.order == if |w.order| + 1 <= SEEN_LIMIT then w.order + [id] else (w.order + [id])[1..]
    requires |w.order| + 1 > SEEN_LIMIT ==> k + 1 < |w0.order|
    requires forall y :: y in w'.order ==> y in w'.seen
    requires Distinct(applied + [id]) && x !in applied + [id]
    ensures Remembered(w0, w', x, applied + [id])
  {
    var more := applied + [id];
    if |w.order| + 1 <= SEEN_LIMIT {
      assert w'.order == w0.order[k..] + more;
      Behind(w0, w', x, more, k);
    } else {
      DropFirst(w0.order, k, applied, id);
      assert w'.order == w0.order[k + 1..] + more;
      Behind(w0, w', x, more, k + 1);
    }
  }

  lemma Queue(w: Window, id: string)
    requires WindowInv(w)
    ensures var (w', apply) := Receive(w, id);
            && (apply <==> id !in w.seen) && WindowInv(w')
            && (apply ==> id !in w.order)
            && (apply ==> w'.order == if |w.order| + 1 <= SEEN_LIMIT then w.order + [id] else (w.order + [id])[1..])
            && (!apply ==> w' == w) && |w.order| <= SEEN_LIMIT
            && (forall y :: y in w'.order ==> y in w'.seen)
  {
    ReceiveKeeps(w, id);
  }

  lemma {:induction false} RememberedLong(w0: Window, x: string, messages: seq<string>)
    requires WindowInv(w0) && w0.order != [] && x == w0.order[|w0.order| - 1]
    ensures var (w, applied) := Deliver(w0, messages); Remembered(w0, w, x, applied) || WentBy(x, applied)
    decreases |messages|
  {
    if messages == [] {
      assert w0.order == w0.order[0..] + [];
      assert x in Elements(w0.order);
    } else {
      var front, id := messages[..|messages| - 1], messages[|messages| - 1];
      RememberedLong(w0, x, front);
      DeliverKeeps(w0, front);
      var (w, applied) := Deliver(w0, front);
      if Remembered(w0, w, x, applied) { OneMoreSeen(w0, w, x, applied, id); }
      else { StillWentBy(x, applied, id); }
    }
  }

  lemma StillWentBy(x: string, applied: seq<string>, id: string)
    requires WentBy(x, applied)
    ensures WentBy(x, applied + [id])
  {
    var a, b :| 0 <= a <= b <= |applied| && b - a == SEEN_LIMIT && Distinct(applied[a..b]) && x !in applied[a..b];
    assert (applied + [id])[a..b] == applied[a..b];
  }

  /** Whatever the publisher repeats, a client applies an event again only after it has applied
      at least a thousand events with other, pairwise different ids. */
  lemma AppliedAgainLate(w0: Window, x: string, messages: seq<string>)
    requires WindowInv(w0) && w0.order != [] && x == w0.order[|w0.order| - 1]
    requires Receive(Deliver(w0, messages).0, x).1
    ensures WentBy(x, Deliver(w0, messages).1)
  {
    RememberedLong(w0, x, messages);
  }
}

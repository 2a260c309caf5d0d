/**
 The part of the multi-producer channel that lives under its lock: the bounded
 queue, the wait-list of backpressured senders and the set of woken ones.
 Each function is one critical section.
 */
module MpscChannel {
  import opened Wrappers

  /** Identity of an item; the channel never looks inside. */
  type Item = nat

  /**
   `q` is the ordered wait-list by sender id (so its head is its smallest id);
   `selected` holds the senders popped and woken but not yet re-polled.
   */
  datatype Chan = Chan(
    cap: nat, queue: seq<Item>, q: seq<nat>, selected: set<nat>, nextId: nat,
    nonempty: bool, waitersLen: nat, closed: bool)

  function NewChan(capacity: nat): Chan {
    Chan(if capacity == 0 then 1 else capacity, [], [], {}, 0, false, 0, false)
  }

  /** The wait-list without `id`. */
  function Without(q: seq<nat>, id: nat): seq<nat> {
    if q == [] then []
    else if q[0] == id then Without(q[1..], id)
    else [q[0]] + Without(q[1..], id)
  }

  function Enqueue(ch: Chan, v: Item): Chan {
    ch.(queue := ch.queue + [v], nonempty := if |ch.queue| == 0 then true else ch.nonempty)
  }

  /** `try_push`: the channel afterwards, and whether the item was accepted. */
  function TryPush(ch: Chan, v: Item): (Chan, bool) {
    if |ch.queue| >= ch.cap then (ch, false) else (Enqueue(ch, v), true)
  }

  /** `try_push_many`: the channel afterwards, and how many items were accepted. */
  function TryPushMany(ch: Chan, items: seq<Item>): (Chan, nat)
    requires |ch.queue| <= ch.cap
  {
    var k := Min(ch.cap - |ch.queue|, |items|);
    if k == 0 then (ch, 0)
    else (ch.(queue := ch.queue + items[..k], nonempty := if |ch.queue| == 0 then true else ch.nonempty), k)
  }

  datatype Outcome = Sent | Closed | Parked(id: nat)

  /** The slow half of `push_or_park`: refuse, push, or join the wait-list. */
  function PushOrPark(ch: Chan, v: Item): (Chan, Outcome) {
    if ch.closed then (ch, Closed)
    else if |ch.queue| < ch.cap then (Enqueue(ch, v), Sent)
    else (ch.(q := ch.q + [ch.nextId], nextId := ch.nextId + 1, waitersLen := |ch.q| + 1), Parked(ch.nextId))
  }

  /** `repoll_waiter`: leave the wait-list and redeem the wake, if any. */
  function Repoll(ch: Chan, id: nat): Chan {
    var q := Without(ch.q, id);
    ch.(q := q, selected := ch.selected - {id}, waitersLen := |q|)
  }

  /** Pop the first waiter and mark it woken. */
  function WakeOne(ch: Chan): (Chan, Option<nat>) {
    if ch.q == [] then (ch.(waitersLen := 0), None)
    else (ch.(q := ch.q[1..], selected := ch.selected + {ch.q[0]}, waitersLen := |ch.q| - 1), Some(ch.q[0]))
  }

  /** `cancel_waiter`: leave the wait-list; an unredeemed wake passes to the next waiter. */
  function Cancel(ch: Chan, id: nat): (Chan, Option<nat>) {
    var held := id in ch.selected;
    var ch1 := Repoll(ch, id);
    if held then WakeOne(ch1) else (ch1, None)
  }

  /** `steal_into`: the whole queue changes hands and one waiter is woken. */
  function Steal(ch: Chan): (Chan, seq<Item>, Option<nat>) {
    if ch.queue == [] then (ch, [], None)
    else
      var (ch1, woken) := WakeOne(ch.(queue := [], nonempty := false));
      (ch1, ch.queue, woken)
  }

  /** `wake_all_waiters`: the wait-list and all credits are dissolved. */
  function WakeAll(ch: Chan): (Chan, seq<nat>) {
    (ch.(q := [], selected := {}, waitersLen := 0), ch.q)
  }

  // ---------------- the invariant of the critical sections ----------------

  predicate Ascending(q: seq<nat>) {
    forall i, j :: 0 <= i < j < |q| ==> q[i] < q[j]
  }

  ghost predicate ChanInv(ch: Chan) {
    && ch.cap > 0 && |ch.queue| <= ch.cap
    && (ch.nonempty <==> ch.queue != [])
    && ch.waitersLen == |ch.q|
    && Ascending(ch.q)
    && (forall id :: id in ch.q ==> id < ch.nextId && id !in ch.selected)
    && (forall id :: id in ch.selected ==> id < ch.nextId)
  }

  /** Nobody waits without a reason: there is something to steal, or somebody woken. */
  predicate Credit(ch: Chan) {
    ch.q != [] ==> ch.queue != [] || ch.selected != {}
  }

  lemma {:induction false} WithoutKeeps(q: seq<nat>, id: nat)
    ensures forall x :: x in Without(q, id) <==> x in q && x != id
    ensures Ascending(q) ==> Ascending(Without(q, id))
  {
    if q != [] {
      WithoutKeeps(q[1..], id);
      var rest := Without(q[1..], id);
      assert q == [q[0]] + q[1..];
      if Ascending(q) {
        assert Ascending(q[1..]);
        assert forall x :: x in rest ==> x in q[1..];
        assert forall i :: 0 <= i < |rest| ==> rest[i] in rest;
      }
    }
  }

  lemma PushInv(ch: Chan, v: Item, items: seq<Item>)
    requires ChanInv(ch)
    ensures ChanInv(TryPush(ch, v).0) && ChanInv(TryPushMany(ch, items).0) && ChanInv(PushOrPark(ch, v).0)
    ensures !TryPush(ch, v).1 ==> ch.queue != []
    ensures PushOrPark(ch, v).1.Parked? ==> ch.queue != [] && !ch.closed
  {
    assert forall i :: 0 <= i < |ch.q| ==> ch.q[i] in ch.q;
  }

  lemma RepollInv(ch: Chan, id: nat)
    requires ChanInv(ch)
    ensures ChanInv(Repoll(ch, id))
    ensures forall x :: x in Repoll(ch, id).q <==> x in ch.q && x != id
  {
    WithoutKeeps(ch.q, id);
  }

  /** Popping the head of an ascending list removes exactly that id. */
  lemma PopHead(q: seq<nat>)
    requires q != [] && Ascending(q)
    ensures Ascending(q[1..]) && forall x :: x in q[1..] <==> x in q && x != q[0]
  {
    var r := q[1..];
    assert q == [q[0]] + r;
    assert forall i :: 0 <= i < |r| ==> r[i] == q[i + 1];
    assert forall i :: 0 <= i < |r| ==> r[i] != q[0];
  }

  lemma WakeOneInv(ch: Chan)
    requires ChanInv(ch)
    ensures ChanInv(WakeOne(ch).0) && Credit(WakeOne(ch).0)
    ensures var (ch', woken) := WakeOne(ch);
            && (forall x :: x in ch'.q <==> x in ch.q && Some(x) != woken)
            && (forall x :: x in ch'.selected <==> x in ch.selected || Some(x) == woken)
            && (woken.Some? ==> woken.value in ch.q)
            && (woken.Some? <==> ch.q != [])
  {
    if ch.q != [] {
      PopHead(ch.q);
      hide Ascending;
      assert ch.q[0] in ch.q && ch.q[0] in WakeOne(ch).0.selected;
    }
  }

  lemma CancelInv(ch: Chan, id: nat)
    requires ChanInv(ch)
    ensures ChanInv(Cancel(ch, id).0)
    ensures Credit(ch) ==> Credit(Cancel(ch, id).0)
    ensures Cancel(ch, id).0.queue == ch.queue
    ensures var (ch', woken) := Cancel(ch, id);
            && (forall x :: x in ch'.q <==> x in ch.q && x != id && Some(x) != woken)
            && (forall x :: x in ch'.selected <==> (x in ch.selected && x != id) || Some(x) == woken)
            && (woken.Some? ==> woken.value in ch.q && woken.value != id)
  {
    RepollInv(ch, id);
    WakeOneInv(Repoll(ch, id));
    if id !in ch.selected && Repoll(ch, id).q != [] {
      assert Repoll(ch, id).q[0] in ch.q;
    }
  }

  lemma StealInv(ch: Chan)
    requires ChanInv(ch)
    ensures ChanInv(Steal(ch).0)
    ensures ch.queue != [] ==> Credit(Steal(ch).0)
    ensures Steal(ch).0.queue == []
    ensures var (ch', items, woken) := Steal(ch);
            && (forall x :: x in ch'.q <==> x in ch.q && Some(x) != woken)
            && (forall x :: x in ch'.selected <==> x in ch.selected || Some(x) == woken)
            && (woken.Some? ==> woken.value in ch.q)
  {
    if ch.queue != [] {
      WakeOneInv(ch.(queue := [], nonempty := false));
    }
  }

  /** A push is refused exactly when the queue is full; a batch is cut short only by filling the queue. */
  lemma PushExact(ch: Chan, v: Item, items: seq<Item>)
    requires ChanInv(ch)
    ensures var (ch', ok) := TryPush(ch, v);
            && (ok <==> |ch.queue| < ch.cap)
            && ch'.queue == (if ok then ch.queue + [v] else ch.queue)
    ensures var (ch', k) := TryPushMany(ch, items);
            && k <= |items| && ch'.queue == ch.queue + items[..k]
            && (k < |items| ==> |ch'.queue| == ch.cap)
    ensures var (ch', o) := PushOrPark(ch, v);
            && (o.Closed? <==> ch.closed)
            && (o.Sent? <==> !ch.closed && |ch.queue| < ch.cap)
            && ch'.queue == (if o.Sent? then ch.queue + [v] else ch.queue)
  {
    assert items[..0] == [];
  }
}

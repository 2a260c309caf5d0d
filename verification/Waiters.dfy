/**
 The wait queues of the single-threaded primitives: registering, re-registering
 and deregistering a future's entry, and what ties a queue to the live futures.
 */
module Waiters {
  import opened Wrappers
  import opened Queue

  /** A queue entry: the future's token, the size of its request, and its waker. */
  datatype Entry = Entry(id: nat, need: nat, waker: nat)

  /** A live future: its `registered` slot, and whether it was woken since its last poll. */
  datatype Fut = Fut(slot: Option<Entry>, notified: bool)

  /** The question that `take_where` asks of each entry; the answer depends on the entry alone. */
  function HasId(id: nat): Asked<Entry> {
    (seen: seq<Entry>, e: Entry) => e.id == id
  }

  /** The queue without the entries of `id`. */
  function Others(q: seq<Entry>, id: nat): seq<Entry> {
    if q == [] then []
    else (if q[0].id != id then [q[0]] else []) + Others(q[1..], id)
  }

  /** What `take_where` leaves in the queue. */
  lemma {:induction false} SelectIsOthers(q: seq<Entry>, seen: seq<Entry>, id: nat)
    ensures Select(q, seen, Not(HasId(id))) == Others(q, id)
    decreases |q|
  {
    if q != [] {
      SelectIsOthers(q[1..], seen + [q[0]], id);
    }
  }

  predicate Queued(q: seq<Entry>, id: nat) {
    exists i :: 0 <= i < |q| && q[i].id == id
  }

  /** The slot's entry is still queued with an equivalent waker, so a re-poll leaves the queue alone. */
  predicate Current(q: seq<Entry>, slot: Option<Entry>, waker: nat) {
    slot.Some? && slot.value.waker == waker && Queued(q, slot.value.id)
  }

  /** `register`: the queue, the next token and the slot afterwards. */
  function Register(q: seq<Entry>, nextId: nat, slot: Option<Entry>, need: nat, waker: nat): (seq<Entry>, nat, Option<Entry>) {
    if Current(q, slot, waker) then (q, nextId, slot)
    else
      var id := if slot.Some? then slot.value.id else nextId;
      var e := Entry(id, need, waker);
      (Others(q, id) + [e], if slot.Some? then nextId else nextId + 1, Some(e))
  }

  /** `deregister`: the queue afterwards; the slot becomes empty. */
  function Deregister(q: seq<Entry>, slot: Option<Entry>): seq<Entry> {
    if slot.Some? then Others(q, slot.value.id) else q
  }

  /** The future that owns token `id` is woken. */
  function WakeOwner(futs: map<nat, Fut>, woken: Option<Entry>): map<nat, Fut> {
    if woken.None? then futs
    else map f | f in futs :: if OwnsId(futs[f], woken.value.id) then futs[f].(notified := true) else futs[f]
  }

  predicate OwnsId(x: Fut, id: nat) {
    x.slot.Some? && x.slot.value.id == id
  }

  // ---------------- queues and futures ----------------

  predicate DistinctIds(q: seq<Entry>) {
    forall i, j :: 0 <= i < j < |q| ==> q[i].id != q[j].id
  }

  predicate SameId(x: Fut, y: Fut) {
    x.slot.Some? && y.slot.Some? && x.slot.value.id == y.slot.value.id
  }

  ghost predicate HasOwner(futs: map<nat, Fut>, e: Entry) {
    exists f :: f in futs && futs[f].slot == Some(e)
  }

  /** Every queued entry is queued once and belongs to exactly one live future. */
  ghost predicate Bound(q: seq<Entry>, nextId: nat, futs: map<nat, Fut>) {
    && DistinctIds(q)
    && (forall f :: f in futs && futs[f].slot.Some? ==> futs[f].slot.value.id < nextId)
    && (forall f, g :: f in futs && g in futs && SameId(futs[f], futs[g]) ==> f == g)
    && (forall i :: 0 <= i < |q| ==> HasOwner(futs, q[i]))
  }

  /** A registered future is queued, or it was popped and woken and has not been polled since. */
  ghost predicate Torch(q: seq<Entry>, futs: map<nat, Fut>) {
    forall f :: f in futs ==>
      if futs[f].slot.Some? then futs[f].notified <==> !Queued(q, futs[f].slot.value.id) else !futs[f].notified
  }

  ghost predicate SomeWoken(futs: map<nat, Fut>) {
    exists f :: f in futs && futs[f].notified
  }

  // ---------------- sequences of entries ----------------

  /** `take_where` removes exactly the entries of `id`. */
  lemma {:induction false} OthersMembers(q: seq<Entry>, id: nat)
    ensures forall e :: e in Others(q, id) <==> e in q && e.id != id
  {
    if q != [] {
      OthersMembers(q[1..], id);
      assert q == [q[0]] + q[1..];
    }
  }

  lemma {:induction false} OthersDistinct(q: seq<Entry>, id: nat)
    requires DistinctIds(q)
    ensures DistinctIds(Others(q, id))
  {
    if q != [] {
      var tail := q[1..];
      assert forall j :: 0 <= j < |tail| ==> tail[j] == q[j + 1];
      OthersDistinct(tail, id);
      OthersMembers(tail, id);
      var rest := Others(tail, id);
      forall j | 0 <= j < |rest| ensures rest[j].id != q[0].id {
        assert rest[j] in rest && rest[j] in tail;
      }
    }
  }

  lemma {:induction false} OthersAll(q: seq<Entry>, id: nat)
    requires forall i :: 0 <= i < |q| ==> q[i].id != id
    ensures Others(q, id) == q
  {
    if q != [] {
      OthersAll(q[1..], id);
    }
  }

  /** The rest of the queue keeps its entries, and with them their distinctness. */
  lemma OthersKeeps(q: seq<Entry>, id: nat)
    ensures forall e :: e in Others(q, id) <==> e in q && e.id != id
    ensures DistinctIds(q) ==> DistinctIds(Others(q, id))
    ensures (forall i :: 0 <= i < |q| ==> q[i].id != id) ==> Others(q, id) == q
  {
    OthersMembers(q, id);
    if DistinctIds(q) {
      OthersDistinct(q, id);
    }
    if forall i :: 0 <= i < |q| ==> q[i].id != id {
      OthersAll(q, id);
    }
    hide Others, DistinctIds;
  }

  lemma OthersHead(q: seq<Entry>, id: nat)
    requires q != [] && q[0].id != id
    ensures Others(q, id) != [] && Others(q, id)[0] == q[0]
  {
  }

  lemma OthersTail(q: seq<Entry>)
    requires q != [] && DistinctIds(q)
    ensures Others(q, q[0].id) == q[1..]
  {
    var r := q[1..];
    assert forall j :: 0 <= j < |r| ==> r[j] == q[j + 1];
    OthersAll(r, q[0].id);
  }

  lemma QueuedIn(q: seq<Entry>, e: Entry)
    requires e in q
    ensures Queued(q, e.id)
  {
    var i :| 0 <= i < |q| && q[i] == e;
  }

  lemma OthersQueued(q: seq<Entry>, id: nat, x: nat)
    ensures Queued(Others(q, id), x) <==> Queued(q, x) && x != id
  {
    OthersKeeps(q, id);
    var r := Others(q, id);
    if Queued(r, x) {
      var i :| 0 <= i < |r| && r[i].id == x;
      assert r[i] in r;
      QueuedIn(q, r[i]);
    }
    if Queued(q, x) && x != id {
      var i :| 0 <= i < |q| && q[i].id == x;
      assert q[i] in q;
      QueuedIn(r, q[i]);
    }
  }

  lemma AppendQueued(q: seq<Entry>, e: Entry, x: nat)
    ensures Queued(q + [e], x) <==> Queued(q, x) || x == e.id
  {
    assert (q + [e])[|q|] == e;
    if Queued(q, x) {
      var i :| 0 <= i < |q| && q[i].id == x;
      assert (q + [e])[i].id == x;
    }
  }

  lemma PopQueued(q: seq<Entry>, x: nat)
    requires q != [] && DistinctIds(q)
    ensures Queued(q[1..], x) <==> Queued(q, x) && x != q[0].id
  {
    if Queued(q, x) && x != q[0].id {
      var i :| 0 <= i < |q| && q[i].id == x;
      assert q[1..][i - 1].id == x;
    }
    if Queued(q[1..], x) {
      var i :| 0 <= i < |q[1..]| && q[1..][i].id == x;
      assert q[i + 1].id == x;
    }
  }

  // ---------------- what the operations keep ----------------

  lemma RegisterQueued(q: seq<Entry>, nextId: nat, slot: Option<Entry>, need: nat, waker: nat, x: nat)
    ensures var (q', _, slot') := Register(q, nextId, slot, need, waker);
            slot'.Some? && (Queued(q', x) <==> Queued(q, x) || x == slot'.value.id)
  {
    if !Current(q, slot, waker) {
      var id := if slot.Some? then slot.value.id else nextId;
      OthersQueued(q, id, x);
      AppendQueued(Others(q, id), Entry(id, need, waker), x);
    }
  }

  lemma EntryHasOwner(q: seq<Entry>, nextId: nat, futs: map<nat, Fut>, e: Entry)
    requires Bound(q, nextId, futs) && e in q
    ensures exists g :: g in futs && futs[g].slot == Some(e)
  {
    var i :| 0 <= i < |q| && q[i] == e;
    assert HasOwner(futs, q[i]);
  }

  /** Another future's entry keeps its owner when future `f` changes its slot. */
  lemma OtherOwnerKept(q: seq<Entry>, nextId: nat, futs: map<nat, Fut>, f: nat, x: Fut, e: Entry)
    requires Bound(q, nextId, futs) && f in futs && e in q
    requires futs[f].slot.Some? ==> futs[f].slot.value.id != e.id
    ensures HasOwner(futs[f := x], e) && HasOwner(futs - {f}, e)
  {
    EntryHasOwner(q, nextId, futs, e);
    var g :| g in futs && futs[g].slot == Some(e);
    assert g != f;
    assert futs[f := x][g].slot == Some(e);
    assert (futs - {f})[g].slot == Some(e);
  }

  lemma DeregisterBound(q: seq<Entry>, nextId: nat, futs: map<nat, Fut>, f: nat)
    requires Bound(q, nextId, futs) && f in futs
    ensures var q' := Deregister(q, futs[f].slot);
            Bound(q', nextId, futs[f := Fut(None, false)]) && Bound(q', nextId, futs - {f})
  {
    var q' := Deregister(q, futs[f].slot);
    if futs[f].slot.Some? {
      OthersKeeps(q, futs[f].slot.value.id);
    }
    forall i | 0 <= i < |q'|
      ensures HasOwner(futs[f := Fut(None, false)], q'[i]) && HasOwner(futs - {f}, q'[i])
    {
      assert q'[i] in q' && q'[i] in q;
      OtherOwnerKept(q, nextId, futs, f, Fut(None, false), q'[i]);
    }
  }

  lemma DeregisterTorch(q: seq<Entry>, nextId: nat, futs: map<nat, Fut>, f: nat)
    requires Bound(q, nextId, futs) && Torch(q, futs) && f in futs
    ensures var q' := Deregister(q, futs[f].slot);
            Torch(q', futs[f := Fut(None, false)]) && Torch(q', futs - {f})
  {
    if futs[f].slot.Some? {
      forall g | g in futs && g != f && futs[g].slot.Some?
        ensures Queued(Deregister(q, futs[f].slot), futs[g].slot.value.id) <==> Queued(q, futs[g].slot.value.id)
      {
        OthersQueued(q, futs[f].slot.value.id, futs[g].slot.value.id);
      }
    }
  }

  /** A future that registers is queued exactly once and no longer counts as woken. */
  lemma RegisterBound(q: seq<Entry>, nextId: nat, futs: map<nat, Fut>, f: nat, need: nat, waker: nat, woken: bool)
    requires Bound(q, nextId, futs) && f in futs
    ensures var (q', nextId', slot') := Register(q, nextId, futs[f].slot, need, waker);
            nextId <= nextId' && Bound(q', nextId', futs[f := Fut(slot', woken)])
  {
    var slot := futs[f].slot;
    var (q', nextId', slot') := Register(q, nextId, slot, need, waker);
    var futs' := futs[f := Fut(slot', woken)];
    if Current(q, slot, waker) {
      forall i | 0 <= i < |q| ensures HasOwner(futs', q[i]) {
        assert q[i] in q;
        EntryHasOwner(q, nextId, futs, q[i]);
        var g :| g in futs && futs[g].slot == Some(q[i]);
        assert futs'[g].slot == Some(q[i]);
      }
    } else {
      RegisterFreshBound(q, nextId, futs, f, slot'.value, woken);
    }
  }

  lemma RegisterFreshBound(q: seq<Entry>, nextId: nat, futs: map<nat, Fut>, f: nat, e: Entry, woken: bool)
    requires Bound(q, nextId, futs) && f in futs
    requires e.id == if futs[f].slot.Some? then futs[f].slot.value.id else nextId
    ensures Bound(Others(q, e.id) + [e], if futs[f].slot.Some? then nextId else nextId + 1, futs[f := Fut(Some(e), woken)])
  {
    var r := Others(q, e.id);
    var futs' := futs[f := Fut(Some(e), woken)];
    OthersKeeps(q, e.id);
    assert forall i :: 0 <= i < |r| ==> r[i] in r;
    forall i | 0 <= i < |r + [e]| ensures HasOwner(futs', (r + [e])[i]) {
      if i < |r| {
        OtherOwnerKept(q, nextId, futs, f, Fut(Some(e), woken), r[i]);
      } else {
        assert futs'[f].slot == Some(e);
      }
    }
  }

  lemma RegisterTorch(q: seq<Entry>, nextId: nat, futs: map<nat, Fut>, f: nat, need: nat, waker: nat)
    requires Bound(q, nextId, futs) && Torch(q, futs) && f in futs
    ensures var (q', _, slot') := Register(q, nextId, futs[f].slot, need, waker);
            Torch(q', futs[f := Fut(slot', false)])
  {
    var (q', _, slot') := Register(q, nextId, futs[f].slot, need, waker);
    RegisterQueued(q, nextId, futs[f].slot, need, waker, slot'.value.id);
    forall g | g in futs && g != f && futs[g].slot.Some?
      ensures Queued(q', futs[g].slot.value.id) <==> Queued(q, futs[g].slot.value.id)
    {
      RegisterQueued(q, nextId, futs[f].slot, need, waker, futs[g].slot.value.id);
    }
  }

  /** A popped entry passes the torch to its owner. */
  lemma PopBound(q: seq<Entry>, nextId: nat, futs: map<nat, Fut>)
    requires Bound(q, nextId, futs) && q != []
    ensures Bound(q[1..], nextId, WakeOwner(futs, Some(q[0])))
    ensures SomeWoken(WakeOwner(futs, Some(q[0])))
  {
    var futs' := WakeOwner(futs, Some(q[0]));
    assert forall g :: g in futs ==> futs'[g].slot == futs[g].slot;
    assert HasOwner(futs, q[0]);
    var o :| o in futs && futs[o].slot == Some(q[0]);
    assert futs'[o].notified;
    forall i | 0 <= i < |q[1..]| ensures HasOwner(futs', q[1..][i]) {
      assert HasOwner(futs, q[i + 1]);
      var g :| g in futs && futs[g].slot == Some(q[i + 1]);
      assert futs'[g].slot == Some(q[1..][i]);
    }
  }

  lemma PopTorch(q: seq<Entry>, nextId: nat, futs: map<nat, Fut>)
    requires Bound(q, nextId, futs) && Torch(q, futs) && q != []
    ensures Torch(q[1..], WakeOwner(futs, Some(q[0])))
  {
    forall g | g in futs && futs[g].slot.Some?
      ensures Queued(q[1..], futs[g].slot.value.id) <==> Queued(q, futs[g].slot.value.id) && futs[g].slot.value.id != q[0].id
    {
      PopQueued(q, futs[g].slot.value.id);
    }
    assert Queued(q, q[0].id);
  }

  /** A new future starts unregistered. */
  lemma NewFuture(q: seq<Entry>, nextId: nat, futs: map<nat, Fut>, f: nat)
    requires Bound(q, nextId, futs) && Torch(q, futs) && f !in futs
    ensures Bound(q, nextId, futs[f := Fut(None, false)]) && Torch(q, futs[f := Fut(None, false)])
  {
    NewFutureBound(q, nextId, futs, f);
    hide Bound;
  }

  lemma NewFutureBound(q: seq<Entry>, nextId: nat, futs: map<nat, Fut>, f: nat)
    requires Bound(q, nextId, futs) && f !in futs
    ensures Bound(q, nextId, futs[f := Fut(None, false)])
  {
    var futs' := futs[f := Fut(None, false)];
    forall i | 0 <= i < |q| ensures HasOwner(futs', q[i]) {
      assert HasOwner(futs, q[i]);
      var g :| g in futs && futs[g].slot == Some(q[i]);
      assert futs'[g].slot == Some(q[i]);
    }
  }

  lemma WakeNobody(futs: map<nat, Fut>)
    ensures WakeOwner(futs, None) == futs
  {
  }

  lemma NewFutureWoken(futs: map<nat, Fut>, f: nat)
    requires f !in futs
    ensures SomeWoken(futs) ==> SomeWoken(futs[f := Fut(None, false)])
  {
    if SomeWoken(futs) {
      var g :| g in futs && futs[g].notified;
      assert futs[f := Fut(None, false)][g].notified;
    }
  }

  lemma NothingToRemove(q: seq<Entry>)
    ensures Deregister(q, None) == q
  {
  }

  lemma DropUnregistered(q: seq<Entry>, futs: map<nat, Fut>, f: nat)
    requires Torch(q, futs) && f in futs && futs[f].slot.None?
    ensures SomeWoken(futs) ==> SomeWoken(futs - {f})
  {
    if SomeWoken(futs) {
      var g :| g in futs && futs[g].notified;
      assert (futs - {f})[g].notified;
    }
  }

  /** Tokens only grow. */
  lemma BoundGrows(q: seq<Entry>, nextId: nat, later: nat, futs: map<nat, Fut>)
    requires Bound(q, nextId, futs) && nextId <= later
    ensures Bound(q, later, futs)
  {
  }

  /** Waking a whole queue, first come first. */
  function WakeEach(futs: map<nat, Fut>, q: seq<Entry>): map<nat, Fut>
    decreases |q|
  {
    if q == [] then futs else WakeEach(WakeOwner(futs, Some(q[0])), q[1..])
  }

  /** Draining a queue leaves every registered future woken. */
  lemma {:induction false} DrainKeeps(q: seq<Entry>, nextId: nat, futs: map<nat, Fut>)
    requires Bound(q, nextId, futs) && Torch(q, futs)
    ensures Bound([], nextId, WakeEach(futs, q)) && Torch([], WakeEach(futs, q))
    decreases |q|
  {
    hide Bound, Torch, WakeOwner;
    if q != [] {
      PopBound(q, nextId, futs);
      PopTorch(q, nextId, futs);
      DrainKeeps(q[1..], nextId, WakeOwner(futs, Some(q[0])));
    }
  }

  /** The tokens of two kinds of futures never coincide. */
  ghost predicate Apart(xs: map<nat, Fut>, ys: map<nat, Fut>) {
    forall f, g :: f in xs && g in ys ==> !SameId(xs[f], ys[g])
  }

  lemma {:induction false} WakeEachSlots(futs: map<nat, Fut>, q: seq<Entry>)
    ensures WakeEach(futs, q).Keys == futs.Keys
    ensures forall f :: f in futs ==> WakeEach(futs, q)[f].slot == futs[f].slot
    decreases |q|
  {
    if q != [] {
      WakeEachSlots(WakeOwner(futs, Some(q[0])), q[1..]);
    }
  }

  /** Exactly one future owns the entry's token, and its slot is that entry. */
  ghost predicate OneOwner(futs: map<nat, Fut>, e: Entry) {
    exists f :: f in futs && futs[f].slot == Some(e) && forall g :: g in futs && OwnsId(futs[g], e.id) ==> g == f
  }

  lemma SoleOwner(q: seq<Entry>, nextId: nat, futs: map<nat, Fut>, j: nat)
    requires Bound(q, nextId, futs) && j < |q|
    ensures OneOwner(futs, q[j])
  {
    assert HasOwner(futs, q[j]);
    var f :| f in futs && futs[f].slot == Some(q[j]);
    forall g | g in futs && OwnsId(futs[g], q[j].id) ensures g == f {
      assert SameId(futs[f], futs[g]);
    }
  }

  lemma WakeKeepsSlots(futs: map<nat, Fut>, woken: Option<Entry>)
    ensures WakeOwner(futs, woken).Keys == futs.Keys
    ensures forall f :: f in futs ==> WakeOwner(futs, woken)[f].slot == futs[f].slot
    ensures forall f :: f in futs && futs[f].notified ==> WakeOwner(futs, woken)[f].notified
    ensures woken.Some? ==> forall f :: f in futs && OwnsId(futs[f], woken.value.id) ==> WakeOwner(futs, woken)[f].notified
  {
  }

  /** Waking without popping leaves queue and owners as they are. */
  lemma WakeBound(q: seq<Entry>, nextId: nat, futs: map<nat, Fut>, woken: Option<Entry>)
    requires Bound(q, nextId, futs)
    ensures Bound(q, nextId, WakeOwner(futs, woken))
  {
    WakeKeepsSlots(futs, woken);
    var futs' := WakeOwner(futs, woken);
    hide WakeOwner;
    assert forall f :: f in futs' <==> f in futs;
    forall i | 0 <= i < |q| ensures HasOwner(futs', q[i]) {
      assert HasOwner(futs, q[i]);
      var g :| g in futs && futs[g].slot == Some(q[i]);
      assert futs'[g].slot == Some(q[i]);
    }
  }
}

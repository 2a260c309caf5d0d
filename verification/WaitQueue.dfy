/** Registering and deregistering on a queue in memory, as the three locks do it. */
module WaitQueue {
  import opened Wrappers
  import opened Waiters
  import Q = Queue

  method IsQueued(q: Q.Queue<Entry>, id: nat) returns (found: bool)
    requires q.Valid()
    ensures found <==> Queued(q.Contents(), id)
  {
    var all := q.Iterate();
    var i := 0;
    while i < |all|
      invariant 0 <= i <= |all|
      invariant forall j :: 0 <= j < i ==> all[j].id != id
    {
      if all[i].id == id {
        return true;
      }
      i := i + 1;
    }
    found := false;
  }

  method RegisterIn(q: Q.Queue<Entry>, nextId: nat, slot: Option<Entry>, need: nat, waker: nat)
    returns (nextId': nat, slot': Option<Entry>)
    requires q.Valid()
    modifies q, q.buf
    ensures q.Valid() && (q.Contents(), nextId', slot') == Register(old(q.Contents()), nextId, slot, need, waker)
  {
    var stale := true;
    if slot.Some? && slot.value.waker == waker {
      var queued := IsQueued(q, slot.value.id);
      stale := !queued;
    }
    if !stale {
      return nextId, slot;
    }
    var id := nextId;
    nextId' := nextId;
    if slot.Some? {
      id := slot.value.id;
    } else {
      nextId' := nextId + 1;
    }
    var entry := Entry(id, need, waker);
    SelectIsOthers(q.Contents(), [], id);
    var _ := q.TakeWhere(HasId(id));
    q.PushBack(entry);
    slot' := Some(entry);
  }

  method DeregisterIn(q: Q.Queue<Entry>, slot: Option<Entry>)
    requires q.Valid()
    modifies q, q.buf
    ensures q.Valid() && q.Contents() == Deregister(old(q.Contents()), slot)
  {
    if slot.Some? {
      SelectIsOthers(q.Contents(), [], slot.value.id);
      var _ := q.TakeWhere(HasId(slot.value.id));
    }
  }

  /** Pop everything, oldest first. */
  method Drain(q: Q.Queue<Entry>) returns (all: seq<Entry>)
    requires q.Valid()
    modifies q
    ensures q.Valid() && all == old(q.Contents()) && q.Contents() == []
  {
    all := [];
    var next := q.PopFront();
    while next.Some?
      invariant q.Valid()
      invariant next.Some? ==> old(q.Contents()) == all + ([next.value] + q.Contents())
      invariant next.None? ==> old(q.Contents()) == all && q.Contents() == []
      decreases |q.Contents()|, next.Some?
    {
      Q.Shift(all, next.value, q.Contents());
      all := all + [next.value];
      next := q.PopFront();
    }
  }
}

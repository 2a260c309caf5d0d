/**
 The channel's shared state as the object that its critical sections update, and
 the receiver that drains it through a private staging queue.
 */
module MpscMemory {
  import opened Wrappers
  import opened MpscChannel

  class Inner {
    const cap: nat
    var queue: seq<Item>
    var q: seq<nat>
    var selected: set<nat>
    var nextId: nat
    var nonempty: bool
    var waitersLen: nat
    var closed: bool

    ghost function View(): Chan
      reads this
    {
      Chan(cap, queue, q, selected, nextId, nonempty, waitersLen, closed)
    }

    constructor (capacity: nat)
      ensures View() == NewChan(capacity) && ChanInv(View())
    {
      cap := if capacity == 0 then 1 else capacity;
      queue, q, selected, nextId, nonempty, waitersLen, closed := [], [], {}, 0, false, 0, false;
    }

    method Push(v: Item) returns (ok: bool)
      requires ChanInv(View())
      modifies this
      ensures (View(), ok) == TryPush(old(View()), v) && ChanInv(View())
    {
      PushInv(View(), v, []);
      if |queue| >= cap {
        return false;
      }
      queue := queue + [v];
      if |queue| == 1 {
        nonempty := true;
      }
      ok := true;
    }

    method PushMany(items: seq<Item>) returns (k: nat)
      requires ChanInv(View())
      modifies this
      ensures (View(), k) == TryPushMany(old(View()), items) && ChanInv(View())
    {
      PushInv(View(), 0, items);
      if items == [] {
        return 0;
      }
      var wasEmpty := queue == [];
      k := Min(cap - |queue|, |items|);
      if k > 0 {
        queue := queue + items[..k];
        if wasEmpty {
          nonempty := true;
        }
      }
    }

    method Park(v: Item) returns (o: Outcome)
      requires ChanInv(View())
      modifies this
      ensures (View(), o) == PushOrPark(old(View()), v) && ChanInv(View())
      ensures o.Parked? ==> o.id in q && o.id !in old(q) && o.id !in selected
    {
      PushInv(View(), v, []);
      if closed {
        return Closed;
      }
      if |queue| < cap {
        queue := queue + [v];
        if |queue| == 1 {
          nonempty := true;
        }
        return Sent;
      }
      o := Parked(nextId);
      q := q + [nextId];
      nextId := nextId + 1;
      waitersLen := |q|;
    }

    method RepollWaiter(id: nat)
      requires ChanInv(View())
      modifies this
      ensures View() == Repoll(old(View()), id) && ChanInv(View())
      ensures id !in q && id !in selected
    {
      RepollInv(View(), id);
      q := Without(q, id);
      selected := selected - {id};
      waitersLen := |q|;
    }

    method PopFirst() returns (woken: Option<nat>)
      requires ChanInv(View())
      modifies this
      ensures (View(), woken) == WakeOne(old(View())) && ChanInv(View()) && Credit(View())
    {
      WakeOneInv(View());
      if q == [] {
        woken := None;
      } else {
        woken := Some(q[0]);
        selected := selected + {q[0]};
        q := q[1..];
      }
      waitersLen := |q|;
    }

    method CancelWaiter(id: nat) returns (woken: Option<nat>)
      requires ChanInv(View())
      modifies this
      ensures (View(), woken) == Cancel(old(View()), id) && ChanInv(View())
      ensures old(Credit(View())) ==> Credit(View())
    {
      CancelInv(View(), id);
      var held := id in selected;
      RepollWaiter(id);
      if held {
        woken := PopFirst();
      } else {
        woken := None;
      }
    }

    method StealAll() returns (staging: seq<Item>, woken: Option<nat>)
      requires ChanInv(View())
      modifies this
      ensures (View(), staging, woken) == Steal(old(View())) && ChanInv(View())
      ensures staging == old(queue) && queue == []
      ensures staging != [] ==> Credit(View())
    {
      StealInv(View());
      staging := queue;
      woken := None;
      if staging != [] {
        queue, nonempty := [], false;
        woken := PopFirst();
      }
    }

    /** Close for the senders: everybody parked is woken, first come first, and nobody stays selected. */
    method WakeAllWaiters() returns (woken: seq<nat>)
      requires ChanInv(View())
      modifies this
      ensures (View(), woken) == WakeAll(old(View())) && ChanInv(View())
    {
      woken := [];
      while q != []
        invariant woken + q == old(q)
        invariant View() == old(View()).(q := q)
        decreases |q|
      {
        woken := woken + [q[0]];
        q := q[1..];
      }
      selected := {};
      waitersLen := 0;
      assert woken == old(q);
    }
  }

  class Receiver {
    const inner: Inner
    var staging: seq<Item>

    constructor (chan: Inner)
      ensures inner == chan && staging == []
    {
      inner, staging := chan, [];
    }

    /** Everything accepted and not yet delivered, oldest first. */
    ghost function Pending(): seq<Item>
      reads this, inner
    {
      staging + inner.queue
    }

    /** The oldest item, if there is one; a waiting sender is woken whenever one waits. */
    method NextStaged() returns (v: Option<Item>)
      requires ChanInv(inner.View())
      modifies this, inner
      ensures ChanInv(inner.View())
      ensures v.None? <==> old(Pending()) == []
      ensures old(Pending()) == (if v.Some? then [v.value] else []) + Pending()
      ensures v.Some? && old(inner.q) != [] ==> old(inner.q)[0] in inner.selected && inner.q == old(inner.q)[1..]
      ensures inner.closed == old(inner.closed) && inner.nextId == old(inner.nextId)
    {
      if staging != [] {
        v := Some(staging[0]);
        staging := staging[1..];
        if inner.waitersLen > 0 {
          var _ := inner.PopFirst();
        }
      } else {
        var stolen, _ := inner.StealAll();
        staging := stolen;
        if staging != [] {
          v := Some(staging[0]);
          staging := staging[1..];
        } else {
          v := None;
        }
      }
    }

    /** A batch is the oldest `max` items, or all there are. */
    method RecvMany(max: nat) returns (out: seq<Item>)
      requires ChanInv(inner.View())
      modifies this, inner
      ensures ChanInv(inner.View())
      ensures |out| == Min(max, |old(Pending())|)
      ensures old(Pending()) == out + Pending()
    {
      out := [];
      while |out| < max
        invariant ChanInv(inner.View()) && |out| <= max
        invariant old(Pending()) == out + Pending()
        decreases max - |out|
      {
        var v := NextStaged();
        if v.None? {
          break;
        }
        out := out + [v.value];
      }
    }
  }
}

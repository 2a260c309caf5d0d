/** The ring in memory: the buffer is an array written in place, the indices are fields. */
module RingBufMemory {
  import opened Wrappers
  import opened WordArithmetic
  import opened RingBufCalls

  class RingBuffer<T> {
    const e: nat
    const buffer: array<T>
    var writeIndex: nat
    var readIndex: nat
    var producerWrite: nat
    var producerRead: nat
    var consumerRead: nat
    var consumerWrite: nat

    ghost function View(): Ring<T>
      reads this, buffer
    {
      Ring(e, buffer[..], writeIndex, readIndex, producerWrite, producerRead, consumerRead, consumerWrite)
    }

    ghost predicate Valid()
      reads this, buffer
    {
      Sound(View())
    }

    /** `memory` is the allocation, with whatever it contains; its length must be a power of two. */
    constructor (exponent: nat, memory: array<T>)
      requires exponent < 64 && memory.Length == Pow2(exponent)
      ensures Valid() && buffer == memory && e == exponent && Contents(View()) == []
    {
      e, buffer := exponent, memory;
      writeIndex, readIndex := 0, 0;
      producerWrite, producerRead := 0, 0;
      consumerRead, consumerWrite := 0, 0;
    }

    method TryPush(v: T) returns (ok: bool)
      requires Valid()
      modifies this, buffer
      ensures (View(), ok) == PushOne(old(View()), v)
      ensures Valid()
      ensures ok <==> |old(Contents(View()))| < buffer.Length
      ensures Contents(View()) == if ok then old(Contents(View())) + [v] else old(Contents(View()))
    {
      PushOneAppends(View(), v);
      hide Sound, Contents, SlotOf, Wrap;
      assert Words(View()) by { LenFits(View()); }
      if WrapSub(producerWrite, producerRead) >= buffer.Length {
        producerRead := readIndex;
        if WrapSub(producerWrite, producerRead) >= buffer.Length {
          return false;
        }
      }
      buffer[SlotOf(e, producerWrite)] := v;
      producerWrite := Wrap(producerWrite + 1);
      writeIndex := producerWrite;
      ok := true;
    }

    method TryPop() returns (v: Option<T>)
      requires Valid()
      modifies this
      ensures (View(), v) == PopOne(old(View()))
      ensures Valid()
      ensures v.None? <==> old(Contents(View())) == []
      ensures old(Contents(View())) == (if v.Some? then [v.value] else []) + Contents(View())
    {
      PopOneTakesFirst(View());
      hide Sound, SlotOf, Wrap;
      assert Words(View()) by { LenFits(View()); }
      if consumerRead == consumerWrite {
        consumerWrite := writeIndex;
        if consumerRead == consumerWrite {
          return None;
        }
      }
      v := Some(buffer[SlotOf(e, consumerRead)]);
      consumerRead := Wrap(consumerRead + 1);
      readIndex := consumerRead;
    }

    /** One bulk copy into the buffer. */
    method CopyIn(at: nat, items: seq<T>)
      requires at + |items| <= buffer.Length
      modifies buffer
      ensures buffer[..] == old(buffer[..at]) + items + old(buffer[at + |items|..])
    {
      var i := 0;
      while i < |items|
        invariant 0 <= i <= |items|
        invariant buffer[..] == old(buffer[..at]) + items[..i] + old(buffer[at + i..])
      {
        ghost var before := buffer[..];
        buffer[at + i] := items[i];
        assert buffer[..] == before[at + i := items[i]];
        i := i + 1;
      }
    }

    /** Both copies of a slice push: up to the end of the buffer, then from its start. */
    method CopyAround(at: nat, items: seq<T>)
      requires at < buffer.Length && |items| <= buffer.Length
      modifies buffer
      ensures buffer[..] == TwoParts(old(buffer[..]), at, items)
    {
      ghost var was := buffer[..];
      var near := Min(buffer.Length - at, |items|);
      CopyIn(at, items[..near]);
      assert buffer[..] == was[..at] + items[..near] + was[at + near..];
      if near < |items| {
        CopyIn(0, items[near..]);
      }
    }

    /** Both copies of a slice pop. */
    method CopyOut(at: nat, n: nat) returns (items: seq<T>)
      requires at < buffer.Length && n <= buffer.Length
      ensures items == Gather(buffer[..], at, n)
    {
      var near := Min(buffer.Length - at, n);
      items := buffer[at..at + near];
      if near < n {
        items := items + buffer[..n - near];
      }
    }

    method TryPushSlice(items: seq<T>) returns (n: nat)
      requires Valid()
      modifies this, buffer
      ensures (View(), n) == PushSlice(old(View()), items)
      ensures Valid() && n <= |items|
      ensures Contents(View()) == old(Contents(View())) + items[..n]
      ensures n == 0 <==> items == [] || |old(Contents(View()))| == buffer.Length
    {
      PushSliceAppends(View(), items);
      hide Sound, Contents, SlotOf, Wrap, TwoParts, WrapSub;
      assert Words(View()) by { LenFits(View()); }
      if items == [] {
        return 0;
      }
      var room := SatSub(buffer.Length, WrapSub(producerWrite, producerRead));
      if room == 0 {
        producerRead := readIndex;
        room := SatSub(buffer.Length, WrapSub(producerWrite, producerRead));
        if room == 0 {
          return 0;
        }
      }
      n := Min(|items|, room);
      CopyAround(SlotOf(e, producerWrite), items[..n]);
      producerWrite := Wrap(producerWrite + n);
      writeIndex := producerWrite;
    }

    /** The items that the consumer can see, after a look at the shared index if its cache is exhausted. */
    method VisibleItems() returns (ready: nat)
      requires Valid()
      modifies this`consumerWrite
      ensures View() == Reloaded(old(View())) && Words(View())
      ensures ready == WrapSub(consumerWrite, consumerRead) <= buffer.Length
    {
      ready := WrapSub(consumerWrite, consumerRead);
      if ready == 0 {
        consumerWrite := writeIndex;
        ready := WrapSub(consumerWrite, consumerRead);
      }
    }

    method TryPopSlice(want: nat) returns (items: seq<T>)
      requires Valid()
      modifies this
      ensures (View(), items) == PopSlice(old(View()), want)
      ensures Valid() && |items| <= want
      ensures old(Contents(View())) == items + Contents(View())
      ensures items == [] <==> want == 0 || old(Contents(View())) == []
    {
      PopSliceTakesPrefix(View(), want);
      assert Words(View());
      hide Sound, Words, Len, Contents, SlotOf, Wrap, Gather, WrapSub, Pow2, Reloaded;
      if want == 0 {
        return [];
      }
      var ready := VisibleItems();
      if ready == 0 {
        return [];
      }
      var n := Min(want, ready);
      items := CopyOut(SlotOf(e, consumerRead), n);
      consumerRead := Wrap(consumerRead + n);
      readIndex := consumerRead;
    }

    /** What freeing the ring drops: exactly the unread items, oldest first. */
    method DropRemaining() returns (dropped: seq<T>)
      requires Valid()
      ensures dropped == Contents(View())
    {
      hide SlotOf, Pow2, Wrap;
      var current := readIndex;
      dropped := [];
      WrapSmall(readIndex);
      while current != writeIndex
        invariant |dropped| <= Len(View())
        invariant current == Wrap(readIndex + |dropped|)
        invariant dropped == Contents(View())[..|dropped|]
        decreases Len(View()) - |dropped|
      {
        NotAtEnd(View(), |dropped|);
        dropped := dropped + [buffer[SlotOf(e, current)]];
        current := Wrap(current + 1);
      }
      NotAtEnd(View(), |dropped|);
    }
  }

  /** Stepping from the read index reaches the write index after exactly the unread items. */
  lemma NotAtEnd<T>(r: Ring<T>, n: nat)
    requires Words(r) && n <= Len(r)
    ensures Wrap(r.read + n) != r.write <==> n < Len(r)
    ensures n < Len(r) ==> Wrap(Wrap(r.read + n) + 1) == Wrap(r.read + (n + 1))
  {
    WrapSmall(r.read + n);
    if n < Len(r) {
      WrapSmall(r.read + (n + 1));
      WrapSmall(Wrap(r.read + n) + 1);
    }
  }
}

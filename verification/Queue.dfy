/**
 The waiter queue: an inline ring of `n` slots (`n` may be 0) that spills to the
 heap, and must always agree with a plain sequence.
 */
module Queue {
  import opened Wrappers

  // ---------------- splitting a sequence ----------------

  /**
   A predicate that may change its mind: its answer depends on the element and
   on everything it was asked about before.
   */
  type Asked<!T> = (seq<T>, T) -> bool

  /** The elements on which `p` answers yes, in order; it was asked about `seen` before. */
  function Select<T(!new)>(s: seq<T>, seen: seq<T>, p: Asked<T>): seq<T>
    decreases |s|
  {
    if s == [] then []
    else (if p(seen, s[0]) then [s[0]] else []) + Select(s[1..], seen + [s[0]], p)
  }

  function Not<T(!new)>(p: Asked<T>): Asked<T> {
    (seen, x) => !p(seen, x)
  }

  /** The positions at which `p` answers yes, counted from the first question it was ever asked. */
  function Positions<T(!new)>(s: seq<T>, seen: seq<T>, p: Asked<T>): seq<nat>
    decreases |s|
  {
    if s == [] then []
    else (if p(seen, s[0]) then [|seen|] else []) + Positions(s[1..], seen + [s[0]], p)
  }

  predicate StrictlyAscending(k: seq<nat>) {
    forall i, j :: 0 <= i < j < |k| ==> k[i] < k[j]
  }

  /** Selecting picks ascending positions, so survivors keep their order and none is picked twice. */
  lemma {:induction false} SelectPicks<T(!new)>(s: seq<T>, seen: seq<T>, p: Asked<T>)
    ensures var k := Positions(s, seen, p);
            && |k| == |Select(s, seen, p)|
            && StrictlyAscending(k)
            && (forall i :: 0 <= i < |k| ==> |seen| <= k[i] < |seen| + |s| && Select(s, seen, p)[i] == s[k[i] - |seen|])
    decreases |s|
  {
    if s != [] {
      SelectPicks(s[1..], seen + [s[0]], p);
      var rest := Positions(s[1..], seen + [s[0]], p);
      assert forall i :: 0 <= i < |rest| ==> s[1..][rest[i] - (|seen| + 1)] == s[rest[i] - |seen|];
    }
  }

  /** Every position goes to exactly one of the two halves of a split, by the answer given there. */
  lemma {:induction false} SplitCovers<T(!new)>(s: seq<T>, seen: seq<T>, p: Asked<T>, i: nat)
    requires |seen| <= i < |seen| + |s|
    ensures var before := (seen + s)[..i]; var x := (seen + s)[i];
            && (i in Positions(s, seen, p) <==> p(before, x))
            && (i in Positions(s, seen, Not(p)) <==> !p(before, x))
    decreases |s|
  {
    var later := seen + [s[0]];
    SelectPicks(s[1..], later, p);
    SelectPicks(s[1..], later, Not(p));
    assert later + s[1..] == seen + s;
    if i == |seen| {
      assert (seen + s)[..i] == seen;
      assert i !in Positions(s[1..], later, p) && i !in Positions(s[1..], later, Not(p));
    } else {
      SplitCovers(s[1..], later, p, i);
    }
  }

  /** Nothing is lost and nothing is duplicated: the two halves together are the whole. */
  lemma {:induction false} SplitConserves<T(!new)>(s: seq<T>, seen: seq<T>, p: Asked<T>)
    ensures multiset(Select(s, seen, p)) + multiset(Select(s, seen, Not(p))) == multiset(s)
    decreases |s|
  {
    if s != [] {
      SplitConserves(s[1..], seen + [s[0]], p);
      assert s == [s[0]] + s[1..];
    }
  }

  /** Selecting from a sequence that grows by one element. */
  lemma {:induction false} SelectAppend<T(!new)>(s: seq<T>, seen: seq<T>, x: T, p: Asked<T>)
    ensures Select(s + [x], seen, p) == Select(s, seen, p) + (if p(seen + s, x) then [x] else [])
    decreases |s|
  {
    if s != [] {
      SelectAppend(s[1..], seen + [s[0]], x, p);
      assert (s + [x])[1..] == s[1..] + [x];
      assert seen + [s[0]] + s[1..] == seen + s;
    } else {
      assert seen + s == seen;
    }
  }

  /** The same for the next element of a longer sequence, asked from the beginning. */
  lemma SelectNext<T(!new)>(all: seq<T>, i: nat, p: Asked<T>)
    requires i < |all|
    ensures Select(all[..i + 1], [], p) == Select(all[..i], [], p) + (if p(all[..i], all[i]) then [all[i]] else [])
  {
    SelectAppend(all[..i], [], all[i], p);
    assert [] + all[..i] == all[..i] && all[..i + 1] == all[..i] + [all[i]];
  }

  /** One element moves from the front of the rest to the back of what is done. */
  lemma Shift<T>(done: seq<T>, x: T, rest: seq<T>)
    ensures done + ([x] + rest) == (done + [x]) + rest
  {
  }

  // ---------------- the queue ----------------

  /** The slot `i` places after `head` in a ring of `n`. */
  function At(head: nat, i: nat, n: nat): nat {
    if head + i < n then head + i else head + i - n
  }

  function Succ(x: nat, n: nat): nat {
    if x + 1 == n then 0 else x + 1
  }

  function Pred(x: nat, n: nat): nat
    requires x > 0 || n > 0
  {
    if x == 0 then n - 1 else x - 1
  }

  /** `tail` is `(head + len) mod n`, and every live slot has been written. */
  predicate RingOk<T>(buf: seq<Option<T>>, head: nat, tail: nat, len: nat) {
    && len <= |buf|
    && (if buf == [] then head == 0 && tail == 0 else head < |buf| && tail == At(head, len, |buf|))
    && forall i :: 0 <= i < len ==> buf[At(head, i, |buf|)].Some?
  }

  /** The live elements, oldest first. */
  function Live<T>(buf: seq<Option<T>>, head: nat, tail: nat, len: nat): (s: seq<T>)
    requires RingOk(buf, head, tail, len)
    ensures |s| == len
  {
    seq(len, i requires 0 <= i < len => buf[At(head, i, |buf|)].value)
  }

  lemma PushBackAppends<T>(buf: seq<Option<T>>, head: nat, tail: nat, len: nat, v: T)
    requires RingOk(buf, head, tail, len) && len < |buf|
    ensures tail < |buf|
    ensures var buf', tail' := buf[tail := Some(v)], Succ(tail, |buf|);
            RingOk(buf', head, tail', len + 1) && Live(buf', head, tail', len + 1) == Live(buf, head, tail, len) + [v]
  {
    var buf' := buf[tail := Some(v)];
    assert forall i :: 0 <= i < len ==> At(head, i, |buf|) != tail;
    assert buf'[At(head, len, |buf|)] == Some(v);
  }

  lemma PushFrontPrepends<T>(buf: seq<Option<T>>, head: nat, tail: nat, len: nat, v: T)
    requires RingOk(buf, head, tail, len) && len < |buf|
    ensures var head' := Pred(head, |buf|); var buf' := buf[head' := Some(v)];
            RingOk(buf', head', tail, len + 1) && Live(buf', head', tail, len + 1) == [v] + Live(buf, head, tail, len)
  {
    var head' := Pred(head, |buf|);
    var buf' := buf[head' := Some(v)];
    assert buf'[At(head', 0, |buf|)] == Some(v);
    forall i | 0 <= i < len
      ensures At(head', i + 1, |buf|) == At(head, i, |buf|) && buf'[At(head', i + 1, |buf|)] == buf[At(head, i, |buf|)]
    {
    }
    forall i | 0 < i < len + 1
      ensures buf'[At(head', i, |buf|)] == buf[At(head, i - 1, |buf|)]
    {
      assert At(head', (i - 1) + 1, |buf|) == At(head, i - 1, |buf|);
    }
  }

  lemma PopFrontRemoves<T>(buf: seq<Option<T>>, head: nat, tail: nat, len: nat)
    requires RingOk(buf, head, tail, len) && len > 0
    ensures var head' := Succ(head, |buf|);
            && RingOk(buf, head', tail, len - 1) && head < |buf| && buf[head].Some?
            && Live(buf, head, tail, len) == [buf[head].value] + Live(buf, head', tail, len - 1)
  {
    var head' := Succ(head, |buf|);
    assert buf[At(head, 0, |buf|)].Some?;
    forall i | 0 <= i < len - 1
      ensures buf[At(head', i, |buf|)] == buf[At(head, i + 1, |buf|)] && buf[At(head, i + 1, |buf|)].Some?
    {
    }
  }

  lemma PopBackRemoves<T>(buf: seq<Option<T>>, head: nat, tail: nat, len: nat)
    requires RingOk(buf, head, tail, len) && len > 0
    ensures var tail' := Pred(tail, |buf|);
            && RingOk(buf, head, tail', len - 1) && buf[tail'].Some?
            && Live(buf, head, tail, len) == Live(buf, head, tail', len - 1) + [buf[tail'].value]
  {
    assert buf[At(head, len - 1, |buf|)].Some?;
  }

  /** `s` lies in consecutive slots from `start` on. */
  ghost predicate SideBySide<T>(buf: seq<Option<T>>, start: nat, s: seq<T>) {
    start + |s| <= |buf| && forall i :: 0 <= i < |s| ==> buf[start + i] == Some(s[i])
  }

  /** A ring whose tail lies beyond its head has not wrapped. */
  lemma Unwrapped<T>(buf: seq<Option<T>>, head: nat, tail: nat, len: nat)
    requires RingOk(buf, head, tail, len) && head < tail
    ensures SideBySide(buf, head, Live(buf, head, tail, len))
  {
    forall i | 0 <= i < len ensures buf[head + i] == Some(Live(buf, head, tail, len)[i]) {
      assert At(head, i, |buf|) == head + i;
    }
  }

  lemma EmptyRing<T>(buf: seq<Option<T>>)
    ensures RingOk(buf, 0, 0, 0) && Live(buf, 0, 0, 0) == []
  {
  }

  lemma LiveFromStart<T>(buf: seq<Option<T>>, all: seq<T>)
    requires 0 < |all| <= |buf| && SideBySide(buf, 0, all)
    ensures var tail := if |all| == |buf| then 0 else |all|;
            RingOk(buf, 0, tail, |all|) && Live(buf, 0, tail, |all|) == all
  {
    forall i | 0 <= i < |all| ensures buf[At(0, i, |buf|)] == Some(all[i]) {
      assert buf[0 + i] == Some(all[i]);
    }
  }

  lemma RingMod(head: nat, i: nat, n: nat)
    requires head < n && i < n
    ensures (head + i) % n == At(head, i, n)
  {
    if head + i >= n {
      assert (head + i - n) % n == head + i - n;
      assert head + i == 1 * n + (head + i - n);
    }
  }

  lemma SwapExchanges<T>(buf: seq<Option<T>>, head: nat, tail: nat, len: nat, a: nat, b: nat)
    requires RingOk(buf, head, tail, len) && a < len && b < len
    ensures var x, y := (head + a) % |buf|, (head + b) % |buf|;
            var buf' := buf[x := buf[y]][y := buf[x]];
            var s := Live(buf, head, tail, len);
            && RingOk(buf', head, tail, len)
            && Live(buf', head, tail, len) == s[a := s[b]][b := s[a]]
  {
    RingMod(head, a, |buf|);
    RingMod(head, b, |buf|);
    var x, y := At(head, a, |buf|), At(head, b, |buf|);
    forall i | 0 <= i < len
      ensures At(head, i, |buf|) == x <==> i == a
      ensures At(head, i, |buf|) == y <==> i == b
    {
    }
  }

  class Queue<T(!new)> {
    const n: nat
    const buf: array<Option<T>>    // a slot that is `None` was never written
    var inline: bool
    var head: nat
    var tail: nat
    var len: nat
    var heap: seq<T>

    ghost predicate Valid()
      reads this, buf
    {
      buf.Length == n && (inline ==> RingOk(buf[..], head, tail, len))
    }

    /** The abstract sequence. */
    ghost function Contents(): (s: seq<T>)
      requires Valid()
      reads this, buf
    {
      if inline then Live(buf[..], head, tail, len) else heap
    }

    constructor (capacity: nat)
      ensures Valid() && n == capacity && fresh(buf) && inline && Contents() == []
    {
      n := capacity;
      buf := new Option<T>[capacity](_ => None);
      inline, head, tail, len, heap := true, 0, 0, 0, [];
    }

    method Length() returns (k: nat)
      requires Valid()
      ensures k == |Contents()|
    {
      k := if inline then len else |heap|;
    }

    /** The live elements in order, as the drain loops and the iterators visit them. */
    method Visit() returns (s: seq<T>)
      requires Valid() && inline
      ensures s == Contents()
    {
      s := [];
      var idx := head;
      var k := 0;
      while k < len
        invariant 0 <= k <= len
        invariant n > 0 ==> idx == At(head, k, n)
        invariant s == Contents()[..k]
      {
        assert buf[..][At(head, k, n)].Some?;
        s := s + [buf[idx].value];
        idx := Succ(idx, n);
        k := k + 1;
      }
    }

    /** What an iterator over the queue yields. */
    method Iterate() returns (s: seq<T>)
      requires Valid()
      ensures s == Contents()
    {
      if inline {
        s := Visit();
      } else {
        s := heap;
      }
    }

    method PushBack(value: T)
      requires Valid()
      modifies this, buf
      ensures Valid() && Contents() == old(Contents()) + [value]
      ensures inline <==> old(inline) && old(len) < n
    {
      if inline {
        if len < n {
          PushBackAppends(buf[..], head, tail, len, value);
          buf[tail] := Some(value);
          tail := Succ(tail, n);
          len := len + 1;
        } else {
          var all := Visit();
          len := 0;
          inline, heap := false, all + [value];
        }
      } else {
        heap := heap + [value];
      }
    }

    method PushFront(value: T)
      requires Valid()
      modifies this, buf
      ensures Valid() && Contents() == [value] + old(Contents())
      ensures inline <==> old(inline) && old(len) < n
    {
      if inline {
        if len < n {
          PushFrontPrepends(buf[..], head, tail, len, value);
          head := Pred(head, n);
          buf[head] := Some(value);
          len := len + 1;
        } else {
          var all := Visit();
          len := 0;
          inline, heap := false, [value] + all;
        }
      } else {
        heap := [value] + heap;
      }
    }

    method PopFront() returns (v: Option<T>)
      requires Valid()
      modifies this
      ensures Valid() && inline == old(inline)
      ensures v.None? <==> old(Contents()) == []
      ensures old(Contents()) == (if v.Some? then [v.value] else []) + Contents()
    {
      if inline {
        if len == 0 {
          return None;
        }
        PopFrontRemoves(buf[..], head, tail, len);
        v := buf[head];
        head := Succ(head, n);
        len := len - 1;
      } else if heap == [] {
        v := None;
      } else {
        v := Some(heap[0]);
        heap := heap[1..];
      }
    }

    method PopBack() returns (v: Option<T>)
      requires Valid()
      modifies this
      ensures Valid() && inline == old(inline)
      ensures v.None? <==> old(Contents()) == []
      ensures old(Contents()) == Contents() + (if v.Some? then [v.value] else [])
    {
      if inline {
        if len == 0 {
          return None;
        }
        PopBackRemoves(buf[..], head, tail, len);
        tail := Pred(tail, n);
        v := buf[tail];
        len := len - 1;
      } else if heap == [] {
        v := None;
      } else {
        v := Some(heap[|heap| - 1]);
        heap := heap[..|heap| - 1];
      }
    }

    method IntoVec() returns (all: seq<T>)
      requires Valid()
      modifies this
      ensures Valid() && inline == old(inline)
      ensures all == old(Contents()) && Contents() == []
    {
      if inline {
        all := Visit();
        head, tail, len := 0, 0, 0;
      } else {
        all := heap;
        heap := [];
      }
    }

    method Reserve(additional: nat)
      requires Valid()
      modifies this
      ensures Valid() && Contents() == old(Contents())
      ensures inline <==> old(inline) && |old(Contents())| + additional <= n
    {
      var current := Length();
      if inline && current + additional > n {
        var all := Visit();
        len := 0;
        inline, heap := false, all;
      }
    }

    /** Afterwards the elements lie side by side, from slot `start` on. */
    method MakeContiguous() returns (start: nat)
      requires Valid()
      modifies this, buf
      ensures Valid() && Contents() == old(Contents()) && inline == old(inline)
      ensures inline ==> start + len <= n && SideBySide(buf[..], start, Contents())
    {
      start := 0;
      if !inline || len == 0 {
        return;
      }
      if head < tail || (head == tail && len == 0) {
        Unwrapped(buf[..], head, tail, len);
        return head;
      }
      Rotate();
    }

    /** Move the elements to the front of the buffer; a full one keeps `tail` equal to `head`. */
    method Rotate()
      requires Valid() && inline && len > 0
      modifies this, buf
      ensures Valid() && Contents() == old(Contents()) && inline
      ensures len <= n && SideBySide(buf[..], 0, Contents())
    {
      var all := Visit();
      WriteFromStart(all);
      head := 0;
      tail := if len == n then 0 else len;
      LiveFromStart(buf[..], all);
    }

    method WriteFromStart(all: seq<T>)
      requires |all| <= buf.Length
      modifies buf
      ensures SideBySide(buf[..], 0, all)
    {
      var i := 0;
      while i < |all|
        invariant 0 <= i <= |all|
        invariant forall j :: 0 <= j < i ==> buf[j] == Some(all[j])
      {
        buf[i] := Some(all[i]);
        i := i + 1;
      }
    }

    /** `keep` is asked about the elements one by one, oldest first. */
    method Retain(keep: Asked<T>)
      requires Valid()
      modifies this, buf
      ensures Valid() && Contents() == Select(old(Contents()), [], keep)
    {
      assert Select([], [], keep) == [];
      hide RingOk, Live, Select;
      var all := IntoVec();
      var i := 0;
      while i < |all|
        invariant 0 <= i <= |all|
        invariant Valid() && Contents() == Select(all[..i], [], keep)
      {
        SelectNext(all, i, keep);
        if keep(all[..i], all[i]) {
          PushBack(all[i]);
        }
        i := i + 1;
      }
      assert all[..i] == all;
    }

    method TakeWhere(remove: Asked<T>) returns (removed: seq<T>)
      requires Valid()
      modifies this, buf
      ensures Valid()
      ensures removed == Select(old(Contents()), [], remove)
      ensures Contents() == Select(old(Contents()), [], Not(remove))
    {
      assert Select([], [], remove) == [] && Select([], [], Not(remove)) == [];
      hide RingOk, Live, Select;
      var all := IntoVec();
      removed := [];
      var i := 0;
      while i < |all|
        invariant 0 <= i <= |all|
        invariant Valid()
        invariant removed == Select(all[..i], [], remove)
        invariant Contents() == Select(all[..i], [], Not(remove))
      {
        SelectNext(all, i, remove);
        SelectNext(all, i, Not(remove));
        if remove(all[..i], all[i]) {
          removed := removed + [all[i]];
        } else {
          PushBack(all[i]);
        }
        i := i + 1;
      }
      assert all[..i] == all;
    }

    method DropEach() returns (dropped: seq<T>)
      requires Valid() && inline
      modifies this
      ensures Valid() && inline && len == 0 && dropped == old(Contents())
    {
      hide RingOk, Live;
      dropped := [];
      while len > 0
        invariant Valid() && inline
        invariant old(Contents()) == dropped + Contents()
        decreases len
      {
        var v := PopFront();
        Shift(dropped, v.value, Contents());
        dropped := dropped + [v.value];
      }
    }

    /** Elements leave the queue before they are dropped, oldest first; the queue is consistent at every step. */
    method Clear() returns (dropped: seq<T>)
      requires Valid()
      modifies this
      ensures Valid() && inline == old(inline) && Contents() == []
      ensures dropped == old(Contents())
    {
      if inline {
        dropped := DropEach();
        head, tail := 0, 0;
        EmptyRing(buf[..]);
      } else {
        dropped := heap;
        heap := [];
      }
    }

    method SwapSlots(x: nat, y: nat)
      requires x < buf.Length && y < buf.Length
      modifies buf
      ensures buf[..] == old(buf[..])[x := old(buf[y])][y := old(buf[x])]
    {
      buf[x], buf[y] := buf[y], buf[x];
    }

    method Swap(a: nat, b: nat)
      requires Valid() && a < |Contents()| && b < |Contents()|
      modifies this, buf
      ensures Valid() && inline == old(inline)
      ensures Contents() == old(Contents())[a := old(Contents())[b]][b := old(Contents())[a]]
    {
      if a == b {
        return;
      }
      if inline {
        SwapExchanges(buf[..], head, tail, len, a, b);
        assert n > 0;
        hide RingOk, Live;
        SwapSlots((head + a) % n, (head + b) % n);
      } else {
        heap := heap[a := heap[b]][b := heap[a]];
      }
    }
  }
}

/**
 The four non-waiting ring operations as whole calls: a bulk copy in two parts
 against one item at a time, on machine words and masked slots.
 */
module RingBufCalls {
  import opened Wrappers
  import opened WordArithmetic

  /** The shared part, then the producer's and the consumer's private copies of both indices. */
  datatype Ring<T> = Ring(e: nat, buf: seq<T>, write: nat, read: nat,
                          pWrite: nat, pRead: nat, cRead: nat, cWrite: nat)

  function Cap<T>(r: Ring<T>): (c: nat)
    ensures c > 0
  {
    Pow2(r.e)
  }

  /** `index & mask` stays inside the buffer. */
  function SlotOf(e: nat, index: nat): (x: nat)
    ensures x < Pow2(e)
  {
    MaskIsMod(index, e);
    BitAnd(index, Pow2(e) - 1)
  }

  predicate Words<T>(r: Ring<T>) {
    && r.e < 64 && |r.buf| == Cap(r)
    && r.write < WORD && r.read < WORD && r.pRead < WORD && r.cWrite < WORD
    && r.pWrite == r.write && r.cRead == r.read
  }

  function Len<T>(r: Ring<T>): nat
    requires Words(r)
  {
    WrapSub(r.write, r.read)
  }

  /** Between calls: the ring is never overfull, and neither cache promises more than there is. */
  predicate Sound<T>(r: Ring<T>) {
    && Words(r)
    && Len(r) <= WrapSub(r.write, r.pRead) <= Cap(r)
    && WrapSub(r.cWrite, r.read) <= Len(r)
  }

  function Contents<T>(r: Ring<T>): (s: seq<T>)
    requires Words(r)
    ensures |s| == Len(r)
  {
    seq(Len(r), i requires 0 <= i < Len(r) => r.buf[SlotOf(r.e, Wrap(r.read + i))])
  }

  // ---------------- one item ----------------

  function PushOne<T>(r: Ring<T>, v: T): (Ring<T>, bool)
    requires Words(r)
  {
    var r1 := if WrapSub(r.pWrite, r.pRead) >= Cap(r) then r.(pRead := r.read) else r;
    if WrapSub(r1.pWrite, r1.pRead) >= Cap(r) then (r1, false)
    else
      var w := Wrap(r1.pWrite + 1);
      (r1.(buf := r1.buf[SlotOf(r1.e, r1.pWrite) := v], pWrite := w, write := w), true)
  }

  function PopOne<T>(r: Ring<T>): (Ring<T>, Option<T>)
    requires Words(r)
  {
    var r1 := if r.cRead == r.cWrite then r.(cWrite := r.write) else r;
    if r1.cRead == r1.cWrite then (r1, None)
    else
      var next := Wrap(r1.cRead + 1);
      (r1.(cRead := next, read := next), Some(r1.buf[SlotOf(r1.e, r1.cRead)]))
  }

  // ---------------- a slice ----------------

  /** The producer's cache after the call has looked at it; the same for the consumer below. */
  function Refreshed<T>(r: Ring<T>): Ring<T>
    requires Words(r)
  {
    if SatSub(Cap(r), WrapSub(r.pWrite, r.pRead)) == 0 then r.(pRead := r.read) else r
  }

  /** Copy `items` to slot `at`, in two parts when it runs past the end. */
  function TwoParts<T>(buf: seq<T>, at: nat, items: seq<T>): (s: seq<T>)
    requires at < |buf| && |items| <= |buf|
    ensures |s| == |buf|
  {
    var near := Min(|buf| - at, |items|);
    var first := buf[..at] + items[..near] + buf[at + near..];
    if near < |items| then items[near..] + first[|items| - near..] else first
  }

  function PushSlice<T>(r: Ring<T>, items: seq<T>): (Ring<T>, nat)
    requires Words(r)
  {
    if items == [] then (r, 0)
    else
      var r1 := Refreshed(r);
      var room := SatSub(Cap(r), WrapSub(r1.pWrite, r1.pRead));
      if room == 0 then (r1, 0)
      else
        var n := Min(|items|, room);
        var w := Wrap(r1.pWrite + n);
        (r1.(buf := TwoParts(r1.buf, SlotOf(r1.e, r1.pWrite), items[..n]), pWrite := w, write := w), n)
  }

  /** Read `n` items from slot `at` on, in two parts when they run past the end. */
  function Gather<T>(buf: seq<T>, at: nat, n: nat): (s: seq<T>)
    requires at < |buf| && n <= |buf|
    ensures |s| == n
  {
    var near := Min(|buf| - at, n);
    if near < n then buf[at..at + near] + buf[..n - near] else buf[at..at + near]
  }

  function Reloaded<T>(r: Ring<T>): Ring<T>
    requires Words(r)
  {
    if WrapSub(r.cWrite, r.cRead) == 0 then r.(cWrite := r.write) else r
  }

  function PopSlice<T>(r: Ring<T>, want: nat): (Ring<T>, seq<T>)
    requires Sound(r)
  {
    if want == 0 then (r, [])
    else
      var r1 := Reloaded(r);
      var n := Min(want, WrapSub(r1.cWrite, r1.cRead));
      if n == 0 then (r1, [])
      else
        var next := Wrap(r1.cRead + n);
        (r1.(cRead := next, read := next), Gather(r1.buf, SlotOf(r1.e, r1.cRead), n))
  }

  // ---------------- single operations, one after the other ----------------

  /** Push items until one is refused; the count of those accepted. */
  function PushEach<T>(r: Ring<T>, items: seq<T>): (Ring<T>, nat)
    requires Words(r)
    decreases |items|
  {
    if items == [] then (r, 0)
    else
      var (r1, ok) := PushOne(r, items[0]);
      if !ok then (r1, 0)
      else
        WrapSmall(r.write + 1);
        var (r2, n) := PushEach(r1, items[1..]);
        (r2, n + 1)
  }

  /** Pop up to `n` items, stopping at the first refusal. */
  function PopEach<T>(r: Ring<T>, n: nat): (Ring<T>, seq<T>)
    requires Words(r)
    decreases n
  {
    if n == 0 then (r, [])
    else
      var (r1, v) := PopOne(r);
      if v.None? then (r1, [])
      else
        WrapSmall(r.read + 1);
        var (r2, vs) := PopEach(r1, n - 1);
        (r2, [v.value] + vs)
  }

  // ---------------- words and slots ----------------

  lemma WrapSmall(x: nat)
    requires x < 2 * WORD
    ensures Wrap(x) == if x < WORD then x else x - WORD
    ensures Wrap(x) < WORD
  {
  }

  /** The slots that follow a word: up to the end of the buffer, then from its start. */
  lemma SlotFollows(e: nat, w: nat)
    requires e < 64 && w < WORD
    ensures SlotOf(e, Wrap(w + 1)) == if SlotOf(e, w) + 1 < Pow2(e) then SlotOf(e, w) + 1 else 0
  {
    SlotOfWrapped(w + 1, e);
    MaskIsMod(w, e);
    hide BitAnd, Wrap;
    var cap := Pow2(e);
    hide Pow2;
    if cap > 1 {
      SlotAfter(w, 1, cap);
    }
  }

  lemma CapFits<T>(r: Ring<T>)
    requires r.e < 64
    ensures 2 * Cap(r) <= WORD
  {
    WordIsPow2();
    Pow2Splits(r.e + 1, 64);
    var q := Pow2(64 - (r.e + 1));
    assert Pow2(64) == q * (2 * Cap(r));
    MulMonotone(1, q, 2 * Cap(r));
  }

  /** The slot about to be written holds no unread item. */
  lemma NextSlotFree<T>(r: Ring<T>, i: nat)
    requires Words(r) && i < Len(r) < Cap(r)
    ensures SlotOf(r.e, Wrap(r.read + i)) != SlotOf(r.e, r.write)
  {
    CapFits(r);
    WrapSmall(r.read + Len(r));
    assert Wrap(r.read + Len(r)) == r.write;
    SlotOfWrapped(r.read + i, r.e);
    SlotOfWrapped(r.read + Len(r), r.e);
    hide BitAnd, Wrap, Pow2;
    SlotsDiffer(r.read + i, r.read + Len(r), Cap(r));
  }

  // ---------------- a bounded queue ----------------

  /** Storing past the last unread item and moving the index appends. */
  lemma StoreAppends<T>(r: Ring<T>, v: T)
    requires Words(r) && Len(r) < Cap(r)
    ensures var w := Wrap(r.write + 1); var r' := r.(buf := r.buf[SlotOf(r.e, r.write) := v], write := w, pWrite := w);
            Words(r') && Len(r') == Len(r) + 1 && Contents(r') == Contents(r) + [v]
  {
    hide SlotOf, BitAnd, Pow2, Wrap;
    CapFits(r);
    WrapSmall(r.write + 1);
    WrapSmall(r.read + Len(r));
    var w := Wrap(r.write + 1);
    var r' := r.(buf := r.buf[SlotOf(r.e, r.write) := v], write := w, pWrite := w);
    assert Len(r') == Len(r) + 1;
    forall i | 0 <= i < Len(r) ensures Contents(r')[i] == Contents(r)[i] {
      NextSlotFree(r, i);
    }
    assert Wrap(r.read + Len(r)) == r.write;
    assert Contents(r')[Len(r)] == v;
  }

  /** A push succeeds exactly when there is room, and then appends. */
  lemma PushOneAppends<T>(r: Ring<T>, v: T)
    requires Sound(r)
    ensures var (r', ok) := PushOne(r, v);
            && Sound(r') && Cap(r') == Cap(r)
            && (ok <==> Len(r) < Cap(r))
            && Contents(r') == (if ok then Contents(r) + [v] else Contents(r))
  {
    hide SlotOf, BitAnd, Pow2, Wrap;
    CapFits(r);
    WrapSmall(r.write + 1);
    var r1 := if WrapSub(r.pWrite, r.pRead) >= Cap(r) then r.(pRead := r.read) else r;
    assert Contents(r1) == Contents(r);
    if Len(r) < Cap(r) {
      StoreAppends(r1, v);
    }
    hide Contents;
  }

  /** Moving the read index past the oldest item removes it. */
  lemma AdvanceRemoves<T>(r: Ring<T>)
    requires Words(r) && 0 < Len(r) <= Cap(r)
    ensures var x := Wrap(r.read + 1); var r' := r.(read := x, cRead := x);
            Words(r') && Len(r') == Len(r) - 1 && Contents(r) == [r.buf[SlotOf(r.e, r.read)]] + Contents(r')
  {
    hide SlotOf, BitAnd, Pow2, Wrap;
    WrapSmall(r.read + 1);
    WrapSmall(r.read);
    var x := Wrap(r.read + 1);
    var r' := r.(read := x, cRead := x);
    assert Contents(r)[0] == r.buf[SlotOf(r.e, r.read)];
    forall i | 0 <= i < Len(r') ensures Contents(r')[i] == Contents(r)[i + 1] {
      CapFits(r);
      WrapSmall(r.read + (i + 1));
      WrapSmall(x + i);
    }
  }

  /** A pop succeeds exactly when the ring is not empty, and then returns the oldest item. */
  lemma PopOneTakesFirst<T>(r: Ring<T>)
    requires Sound(r)
    ensures var (r', v) := PopOne(r);
            && Sound(r') && Cap(r') == Cap(r)
            && (v.Some? <==> Len(r) > 0)
            && (if v.Some? then Contents(r) == [v.value] + Contents(r') else Contents(r') == Contents(r))
  {
    hide SlotOf, BitAnd, Pow2, Wrap;
    CapFits(r);
    WrapSmall(r.read + 1);
    var r1 := if r.cRead == r.cWrite then r.(cWrite := r.write) else r;
    assert Contents(r1) == Contents(r);
    if Len(r) > 0 {
      AdvanceRemoves(r1);
    }
    hide Contents;
  }

  lemma {:induction false} PushEachAppends<T>(r: Ring<T>, items: seq<T>)
    requires Sound(r)
    ensures var (r', n) := PushEach(r, items);
            && Sound(r') && Cap(r') == Cap(r)
            && n == Min(|items|, Cap(r) - Len(r))
            && Contents(r') == Contents(r) + items[..n]
    decreases |items|
  {
    hide PushOne, Sound;
    LenFits(r);
    if items == [] {
      assert Contents(r) == Contents(r) + items[..0];
    } else {
      PushOneAppends(r, items[0]);
      LenFits(PushOne(r, items[0]).0);
      var (r1, ok) := PushOne(r, items[0]);
      if ok {
        PushEachAppends(r1, items[1..]);
        var (r2, n) := PushEach(r1, items[1..]);
        assert items[..n + 1] == [items[0]] + items[1..][..n];
      } else {
        assert Contents(r) == Contents(r) + items[..0];
      }
    }
  }

  lemma LenFits<T>(r: Ring<T>)
    requires Sound(r)
    ensures Words(r) && Len(r) <= Cap(r)
  {
  }

  lemma {:induction false} PopEachTakesPrefix<T>(r: Ring<T>, n: nat)
    requires Sound(r)
    ensures var (r', vs) := PopEach(r, n);
            && Sound(r') && Cap(r') == Cap(r)
            && |vs| == Min(n, Len(r))
            && Contents(r) == vs + Contents(r')
    decreases n
  {
    hide PopOne, Sound;
    LenFits(r);
    if n > 0 {
      PopOneTakesFirst(r);
      var (r1, v) := PopOne(r);
      LenFits(r1);
      if v.Some? {
        PopEachTakesPrefix(r1, n - 1);
      }
    }
  }

  // ---------------- a slice is repeated single operations ----------------

  /** `buf` with `items` laid round it from slot `at` on. */
  function Wound<T>(buf: seq<T>, at: nat, items: seq<T>): (s: seq<T>)
    requires at < |buf| && |items| <= |buf|
    ensures |s| == |buf|
  {
    seq(|buf|, x requires 0 <= x < |buf| =>
      var d := if x >= at then x - at else x + |buf| - at;
      if d < |items| then items[d] else buf[x])
  }

  lemma TwoPartsIsWound<T>(buf: seq<T>, at: nat, items: seq<T>)
    requires at < |buf| && |items| <= |buf|
    ensures TwoParts(buf, at, items) == Wound(buf, at, items)
  {
  }

  lemma WoundStep<T>(buf: seq<T>, at: nat, items: seq<T>)
    requires at < |buf| && 0 < |items| <= |buf|
    ensures Wound(buf, at, items)
         == Wound(buf[at := items[0]], if at + 1 < |buf| then at + 1 else 0, items[1..])
  {
  }

  /** With room for all of them, pushing items one by one lays them round the buffer. */
  lemma {:induction false} PushEachLays<T>(r: Ring<T>, items: seq<T>)
    requires Words(r) && |items| + WrapSub(r.pWrite, r.pRead) <= Cap(r)
    ensures PushEach(r, items)
         == (r.(buf := Wound(r.buf, SlotOf(r.e, r.write), items), write := Wrap(r.write + |items|), pWrite := Wrap(r.write + |items|)),
             |items|)
    decreases |items|
  {
    hide SlotOf, BitAnd, Pow2, Wrap;
    CapFits(r);
    WrapSmall(r.write);
    if items == [] {
      assert Wound(r.buf, SlotOf(r.e, r.write), items) == r.buf;
    } else {
      WrapSmall(r.write + 1);
      WrapSmall(r.write + |items|);
      WoundStep(r.buf, SlotOf(r.e, r.write), items);
      var (r1, ok) := PushOne(r, items[0]);
      SlotFollows(r.e, r.write);
      WrapSmall(r1.write + |items| - 1);
      PushEachLays(r1, items[1..]);
    }
  }

  /**
   A slice push is its accepted prefix pushed one item at a time, down to the
   caches and the dead slots; a slice push that moves nothing is one refused push.
   */
  lemma PushSliceIsRepeatedPush<T>(r: Ring<T>, items: seq<T>)
    requires Sound(r)
    ensures var (r', n) := PushSlice(r, items);
            && n <= |items|
            && (n > 0 || items == [] ==> PushEach(r, items[..n]) == (r', n))
            && (n == 0 && items != [] ==> PushOne(r, items[0]) == (r', false))
  {
    hide SlotOf, BitAnd, Pow2, Wrap;
    CapFits(r);
    var (r', n) := PushSlice(r, items);
    var r1 := Refreshed(r);
    if n > 0 {
      PushEachLays(r1, items[..n]);
      TwoPartsIsWound(r.buf, SlotOf(r.e, r.write), items[..n]);
      RefreshCommutes(r, items[..n]);
    }
  }

  /** Looking at the cache first, as a slice push does, is what the first single push does anyway. */
  lemma RefreshCommutes<T>(r: Ring<T>, items: seq<T>)
    requires Words(r) && items != []
    ensures PushEach(Refreshed(r), items) == PushEach(r, items)
  {
    hide SlotOf, BitAnd, Pow2, Wrap;
    assert PushOne(Refreshed(r), items[0]) == PushOne(r, items[0]);
  }

  /** With the items visible in the cache, popping them one by one gathers them. */
  lemma {:induction false} PopEachGathers<T>(r: Ring<T>, n: nat)
    requires Words(r) && n <= WrapSub(r.cWrite, r.cRead) && n <= Cap(r)
    ensures PopEach(r, n)
         == (r.(read := Wrap(r.read + n), cRead := Wrap(r.read + n)), Gather(r.buf, SlotOf(r.e, r.read), n))
    decreases n
  {
    hide SlotOf, BitAnd, Pow2, Wrap, Gather;
    CapFits(r);
    WrapSmall(r.read);
    if n > 0 {
      WrapSmall(r.read + 1);
      WrapSmall(r.read + n);
      var (r1, v) := PopOne(r);
      SlotFollows(r.e, r.read);
      WrapSmall(r1.read + n - 1);
      PopEachGathers(r1, n - 1);
      GatherStep(r.buf, SlotOf(r.e, r.read), n);
    }
  }

  lemma GatherStep<T>(buf: seq<T>, at: nat, n: nat)
    requires at < |buf| && 0 < n <= |buf|
    ensures Gather(buf, at, n) == [buf[at]] + Gather(buf, if at + 1 < |buf| then at + 1 else 0, n - 1)
  {
  }

  /** A slice pop is the same number of single pops, down to the caches; one that moves nothing is one refused pop. */
  lemma PopSliceIsRepeatedPop<T>(r: Ring<T>, want: nat)
    requires Sound(r)
    ensures var (r', vs) := PopSlice(r, want);
            && |vs| <= want
            && (vs != [] || want == 0 ==> PopEach(r, |vs|) == (r', vs))
            && (vs == [] && want > 0 ==> PopOne(r) == (r', None))
  {
    hide SlotOf, BitAnd, Pow2, Wrap;
    var (r', vs) := PopSlice(r, want);
    var r1 := Reloaded(r);
    if vs != [] {
      PopEachGathers(r1, |vs|);
      assert PopOne(r1) == PopOne(r);
      assert PopEach(r1, |vs|) == PopEach(r, |vs|);
    }
  }

  /** A slice push appends a prefix of the slice, and moves nothing only when there is nothing to move or no room. */
  lemma PushSliceAppends<T>(r: Ring<T>, items: seq<T>)
    requires Sound(r)
    ensures var (r', n) := PushSlice(r, items);
            && Sound(r') && Cap(r') == Cap(r) && n <= |items|
            && Contents(r') == Contents(r) + items[..n]
            && (n == 0 <==> items == [] || Len(r) == Cap(r))
  {
    PushSliceIsRepeatedPush(r, items);
    var (r', n) := PushSlice(r, items);
    PushEachAppends(r, items[..n]);
    LenFits(r);
    if items != [] {
      PushOneAppends(r, items[0]);
    }
    hide PushSlice, PushEach, PushOne, Sound, Words, Len;
    if n == 0 {
      assert items[..0] == [];
      assert Contents(r) == Contents(r) + [];
    } else {
      assert items[..n][..n] == items[..n];
    }
  }

  /** A slice pop takes a prefix of the contents, and nothing only when asked for nothing or empty. */
  lemma PopSliceTakesPrefix<T>(r: Ring<T>, want: nat)
    requires Sound(r)
    ensures var (r', vs) := PopSlice(r, want);
            && Sound(r') && Cap(r') == Cap(r) && |vs| <= want
            && Contents(r) == vs + Contents(r')
            && (vs == [] <==> want == 0 || Len(r) == 0)
  {
    PopSliceIsRepeatedPop(r, want);
    var (r', vs) := PopSlice(r, want);
    PopEachTakesPrefix(r, |vs|);
    LenFits(r);
    PopOneTakesFirst(r);
    hide PopSlice, PopEach, PopOne, Sound, Words, Len;
  }

  /** A push that leaves items behind has exhausted its cache: the next attempt must look at the shared index. */
  lemma PartialPushExhaustsCache<T>(r: Ring<T>, items: seq<T>)
    requires Sound(r)
    ensures var (r', n) := PushSlice(r, items);
            n < |items| ==> Words(r') && WrapSub(r'.write, r'.pRead) == Cap(r')
  {
    hide SlotOf, BitAnd, Pow2, Wrap, TwoParts;
    CapFits(r);
    var (r', n) := PushSlice(r, items);
    WrapSmall(r.write + n);
  }

  /** A pop that wants more has exhausted its cache. */
  lemma PartialPopExhaustsCache<T>(r: Ring<T>, want: nat)
    requires Sound(r)
    ensures var (r', vs) := PopSlice(r, want);
            |vs| < want ==> r'.cWrite == r'.read
  {
    hide SlotOf, BitAnd, Pow2, Wrap, Gather;
    CapFits(r);
    var (r', vs) := PopSlice(r, want);
    WrapSmall(r.read + |vs|);
  }
}

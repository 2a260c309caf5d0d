/** What every interleaving of the triple buffer guarantees. */
module TripleBufferTheorems {
  import opened Wrappers
  import opened Notify
  import opened TripleBuffer
  import opened TripleBufferProof

  function OfSlot(o: Option<nat>): multiset<nat> {
    if o.Some? then multiset{o.value} else multiset{}
  }

  function OfBuf(o: Option<Buf>): multiset<nat> {
    if o.Some? then multiset{o.value.id} else multiset{}
  }

  /** Every buffer there is: in a slot or on either side. */
  function Everything(k: Core): multiset<nat>
    requires |k.bufs| == 3
  {
    OfSlot(k.bufs[0]) + OfSlot(k.bufs[1]) + OfSlot(k.bufs[2]) + OfBuf(k.wbuf) + OfBuf(k.rbuf)
  }

  lemma ThreeApart(a: nat, b: nat, c: nat)
    requires Distinct(a, b, c)
    ensures multiset{a} + multiset{b} + multiset{c} == multiset{0, 1, 2}
  {
  }

  lemma Regroup(x: multiset<nat>, y: multiset<nat>, z: multiset<nat>, u: multiset<nat>, v: multiset<nat>)
    ensures x + y + z + u + v == (x + u) + (y + v) + z
  {
  }

  /** The buffer that belongs to slot `x`: inside it, or outside as `o`. */
  function IdOf(k: Core, x: nat, o: Option<Buf>): nat
    requires |k.bufs| == 3 && x < 3
  {
    if k.bufs[x].Some? then k.bufs[x].value else if o.Some? then o.value.id else 3
  }

  lemma IdsDistinct(k: Core, x: nat, y: nat, z: nat)
    requires Apart(k) && Distinct(x, y, z) && k.bufs[z].Some?
    requires k.bufs[x].Some? || k.wbuf.Some?
    requires k.bufs[y].Some? || k.rbuf.Some?
    ensures Distinct(IdOf(k, x, k.wbuf), IdOf(k, y, k.rbuf), IdOf(k, z, None))
  {
  }

  lemma CountBySlots(k: Core, x: nat, y: nat, z: nat)
    requires Apart(k) && Distinct(x, y, z) && k.bufs[z].Some?
    requires k.bufs[x].Some? <==> k.wbuf.None?
    requires k.bufs[y].Some? <==> k.rbuf.None?
    ensures Everything(k) == multiset{0, 1, 2}
  {
    var a, b, c := IdOf(k, x, k.wbuf), IdOf(k, y, k.rbuf), IdOf(k, z, None);
    IdsDistinct(k, x, y, z);
    SlotsInOrder(k, x, y, z);
    assert |k.bufs| == 3;
    hide Apart, Distinct;
    assert OfSlot(k.bufs[x]) + OfBuf(k.wbuf) == multiset{a};
    assert OfSlot(k.bufs[y]) + OfBuf(k.rbuf) == multiset{b};
    assert OfSlot(k.bufs[z]) == multiset{c};
    hide OfSlot, OfBuf, IdOf;
    ThreeApart(a, b, c);
    Regroup(OfSlot(k.bufs[x]), OfSlot(k.bufs[y]), OfSlot(k.bufs[z]), OfBuf(k.wbuf), OfBuf(k.rbuf));
  }

  lemma SlotsInOrder(k: Core, x: nat, y: nat, z: nat)
    requires |k.bufs| == 3 && Distinct(x, y, z)
    ensures OfSlot(k.bufs[0]) + OfSlot(k.bufs[1]) + OfSlot(k.bufs[2])
            == OfSlot(k.bufs[x]) + OfSlot(k.bufs[y]) + OfSlot(k.bufs[z])
  {
    hide OfSlot;
  }

  /** The three buffers are conserved at every step, whatever was cancelled and taken back. */
  lemma BuffersConserved(run: seq<State>, i: nat)
    requires IsRun(run) && i < |run|
    ensures |run[i].k.bufs| == 3 && Everything(run[i].k) == multiset{0, 1, 2}
  {
    RunInv(run, i);
    hide WakeAll, Messages, Turns, Apart, Everything;
    var k := run[i].k;
    if k.w.WSetM? {
      CountBySlots(k, k.w.i, k.ridx, k.w.j);
    } else if k.r.RSetM? {
      CountBySlots(k, k.widx, k.r.i, k.r.j);
    } else {
      CountBySlots(k, k.widx, k.ridx, k.midx);
    }
  }

  /** Between the two stores of a rotation and nowhere else the indices are not a permutation. */
  lemma IndicesPermutation(run: seq<State>, i: nat)
    requires IsRun(run) && i < |run|
    ensures var k := run[i].k; Distinct(k.widx, k.midx, k.ridx) <==> !k.w.WSetM? && !k.r.RSetM?
  {
    RunInv(run, i);
    hide WakeAll, Messages, Turns, Apart, Occupied;
  }

  /** Nobody panics, and nobody ever overwrites a buffer in a slot. */
  lemma NeverPanics(run: seq<State>, i: nat)
    requires IsRun(run) && i < |run|
    ensures var k := run[i].k;
            && InRange(k) && !k.w.WPanic? && !k.r.RPanic?
            && (k.w.WGet? ==> k.bufs[k.w.j].Some?)
            && (k.r.RGet? ==> k.bufs[k.r.j].Some?)
            && (k.w.WPut? ==> k.wbuf.Some? && k.bufs[k.w.i].None?)
            && (k.r.RPut? && k.rbuf.Some? ==> k.bufs[k.r.i].None?)
  {
    RunInv(run, i);
    hide WakeAll, Messages, Apart;
  }

  /** Writer and reader never work on the same slot at the same time. */
  lemma RotationsExclude(run: seq<State>, i: nat)
    requires IsRun(run) && i < |run|
    ensures var k := run[i].k;
            && !(Publishing(k.w) && Taking(k.r))
            && (k.w.WGet? && (k.r.RPut? || k.r.RPutLen? || k.r.RSetR? || k.r.RSetM?) ==> InRange(k) && k.w.j != k.r.i && k.w.j != k.r.j)
            && (k.w.WGet? && (k.r.RGet? || k.r.RGetLen?) ==> InRange(k) && k.w.j != k.r.j)
  {
    RunInv(run, i);
    hide WakeAll, Messages, Apart, Occupied;
  }

  /**
   Every (buffer, length, contents) that the caller handed to a publish is taken
   exactly once, in order: what was taken is what was handed over, but for the
   latest at most; and what lies in the middle at a bump is what was handed over.
   */
  lemma TakenExactlyOnceInOrder(run: seq<State>, i: nat)
    requires IsRun(run) && i < |run|
    ensures var k := run[i].k;
            && (k.taken == k.handed || (|k.handed| > 0 && k.taken == k.handed[..|k.handed| - 1]))
            && k.published <= k.handed && (k.published == k.handed <==> !Delivering(k.w))
  {
    RunInv(run, i);
    hide WakeAll, Apart, Occupied, Indices;
  }

  /** What the reader holds outside a call is the message it took last, untouched by the writer. */
  lemma ReaderSeesLastTaken(run: seq<State>, i: nat)
    requires IsRun(run) && i < |run|
    requires run[i].k.rbuf.Some? && !Taking(run[i].k.r)
    ensures var k := run[i].k; |k.data| == 3 && k.taken != [] && Shows(k, k.rbuf.value, k.taken[|k.taken| - 1])
  {
    RunInv(run, i);
    hide WakeAll, Apart, Occupied, Indices;
  }

  /** A `publish` that could proceed is woken, or the reader is still signalling. */
  lemma PublishWakeupNotLost(run: seq<State>, i: nat)
    requires IsRun(run) && i < |run|
    requires run[i].k.w.WParked? && !run[i].wslot.notified && run[i].k.taken == run[i].k.published
    ensures run[i].k.r.RSignal?
  {
    RunInv(run, i);
    var s := run[i];
    hide CoreInv, WordInv, CellInv;
    GenLast(s.k);
    Covered(s.wslot);
  }

  /** A `next` that could proceed is woken, or the writer has bumped the generation and not finished signalling. */
  lemma NextWakeupNotLost(run: seq<State>, i: nat)
    requires IsRun(run) && i < |run|
    requires run[i].k.r.RParked? && !run[i].rslot.notified && run[i].k.taken != run[i].k.published
    ensures run[i].k.w.WGet? || run[i].k.w.WSignal?
  {
    RunInv(run, i);
    var s := run[i];
    hide CoreInv, WordInv, CellInv;
    GenLast(s.k);
    Covered(s.rslot);
  }

  /** The generation test is exact, although both counters wrap. */
  lemma GenLast(k: Core)
    requires CoreInv(k)
    ensures k.gen == k.last <==> k.taken == k.published
  {
    hide Indices, Apart, Occupied;
    GenerationsDiffer(k);
  }

  lemma Covered(slot: Slot)
    requires SlotInv(slot) && slot.wpc.On? && !slot.notified
    ensures slot.armed || exists id :: id in slot.signals
  {
    hide WordInv, CellInv;
    if !slot.armed {
      var c :| c in slot.signals && Claims(slot.signals[c], slot.current);
      assert c in slot.signals;
    }
  }

  /** Writer and reader are never both parked with nobody to wake either. */
  lemma NeverBothAsleep(run: seq<State>, i: nat)
    requires IsRun(run) && i < |run|
    requires run[i].k.w.WParked? && run[i].k.r.RParked?
    ensures run[i].wslot.notified || run[i].rslot.notified
  {
    var s := run[i];
    if !s.wslot.notified && !s.rslot.notified {
      if s.k.taken == s.k.published {
        PublishWakeupNotLost(run, i);
      } else {
        NextWakeupNotLost(run, i);
      }
    }
  }

  /**
   An attempt to publish goes ahead exactly when everything published was taken;
   an attempt to take goes ahead only over an unread buffer, and is refused only
   if there was none when it loaded the generation.
   */
  lemma AttemptsDecideExactly(run: seq<State>, i: nat, done: bool)
    requires IsRun(run) && i < |run|
    ensures var k := run[i].k;
            && InRange(k)
            && (k.w.WLast? ==> (Publishing(StepWriter(k, done).w) <==> k.taken == k.published))
            && (k.r.RLast? && Taking(StepReader(k, done).r) ==> k.taken != k.published)
            && (k.r.RLast? && !Taking(StepReader(k, done).r) ==> k.r.g != k.gen || k.taken == k.published)
  {
    RunInv(run, i);
    GenLast(run[i].k);
    hide WakeAll, Messages, Apart, Occupied;
  }

  /** Every enabled action has its step: the well-formedness that a step asks for holds in every reachable state. */
  lemma EveryActionHasItsStep(run: seq<State>, i: nat, a: Action)
    requires IsRun(run) && i < |run| && Enabled(run[i], a)
    ensures Linked(run[i]) && Next(run[i], Apply(run[i], a))
  {
    RunInv(run, i);
    InvLinked(run[i]);
    hide Inv, Apply;
  }
}

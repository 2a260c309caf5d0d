/** What every interleaving of the ring guarantees. */
module RingBufTheorems {
  import opened WordArithmetic
  import opened Notify
  import opened RingBuf
  import opened RingBufProof

  // ---------------- a bounded queue, first in first out ----------------

  /** Popped items are a prefix of pushed ones, and the wrapped indices measure the rest, never above capacity. */
  lemma RefinesBoundedQueue(run: seq<State>, i: nat)
    requires IsRun(run) && i < |run|
    ensures var s := run[i];
            && s.d.out <= s.d.sent
            && Words(s.k) && WrapSub(s.k.write, s.k.read) == |s.d.sent| - |s.d.out| <= Cap(s.k)
  {
    RunInv(run, i);
    QuantitiesExact(run[i].k);
    hide PushInv, PopInv, CopyInv, WakeAll, HalfInv, BitAnd;
  }

  /** Position `j` of the unread items is found in the masked slot of its wrapped index. */
  lemma UnreadItemInItsSlot(run: seq<State>, i: nat, j: nat)
    requires IsRun(run) && i < |run|
    requires |run[i].d.out| <= j < |run[i].d.sent|
    ensures var s := run[i]; var x := SlotOf(s.k, Wrap(j));
            x < |s.d.buf| && s.d.buf[x] == s.d.sent[j]
  {
    RunInv(run, i);
    var s := run[i];
    hide PushInv, PopInv, CopyInv, WakeAll, HalfInv;
    SlotOfWrapped(j, s.k.e);
    assert At(s.d.buf, j) == s.d.sent[j];
  }

  /** Two unread items never share a slot. */
  lemma UnreadSlotsDistinct(run: seq<State>, i: nat, j: nat, l: nat)
    requires IsRun(run) && i < |run|
    requires |run[i].d.out| <= j < l < |run[i].d.sent|
    ensures SlotOf(run[i].k, Wrap(j)) != SlotOf(run[i].k, Wrap(l))
  {
    RunInv(run, i);
    var k := run[i].k;
    SlotOfWrapped(j, k.e);
    SlotOfWrapped(l, k.e);
    hide PushInv, PopInv, CopyInv, WakeAll, HalfInv, BitAnd;
    SlotsDiffer(j, l, Cap(k));
  }

  /** A cached index never promises more than there is. */
  lemma CachesConservative(run: seq<State>, i: nat)
    requires IsRun(run) && i < |run|
    ensures var s := run[i];
            && Words(s.k)
            && Room(s.k, s.k.pr) <= Cap(s.k) - (|s.d.sent| - |s.d.out|)
            && Ready(s.k, s.k.cw) <= |s.d.sent| - |s.d.out|
  {
    RunInv(run, i);
    QuantitiesExact(run[i].k);
    hide PushInv, PopInv, CopyInv, WakeAll, HalfInv, BitAnd;
  }

  // ---------------- wakeups ----------------

  /** The attempt after arming finds its cache exhausted, so it must load the shared index. */
  lemma RecheckMustReload(run: seq<State>, i: nat, done: bool)
    requires IsRun(run) && i < |run|
    ensures var k := run[i].k;
            && Words(k)
            && (k.p.Try? && k.p.att.Recheck? ==> StepProducer(k, done).p == Reload(k.p.left, Recheck))
            && (k.c.Try? && k.c.att.Recheck? ==> StepConsumer(k, done).c == Reload(k.c.left, Recheck))
  {
    RunInv(run, i);
    QuantitiesExact(run[i].k);
    hide DataInv, WakeAll, BitAnd;
  }

  /** A parked, un-notified push with room to move has its peer between the index store and the end of `signal`. */
  lemma PushWakeupNotLost(run: seq<State>, i: nat)
    requires IsRun(run) && i < |run|
    requires run[i].k.p.Parked? && !run[i].pslot.notified
    requires |run[i].d.sent| - |run[i].d.out| < Cap(run[i].k)
    ensures run[i].k.c.Signal?
  {
    RunInv(run, i);
    hide PushInv, PopInv, CopyInv, BitAnd;
  }

  lemma PopWakeupNotLost(run: seq<State>, i: nat)
    requires IsRun(run) && i < |run|
    requires run[i].k.c.Parked? && !run[i].cslot.notified
    requires |run[i].d.out| < |run[i].d.sent|
    ensures run[i].k.p.Signal?
  {
    RunInv(run, i);
    hide PushInv, PopInv, CopyInv, BitAnd;
  }

  /** Both halves never sleep at once. */
  lemma NeverBothAsleep(run: seq<State>, i: nat)
    requires IsRun(run) && i < |run|
    requires run[i].k.p.Parked? && run[i].k.c.Parked?
    ensures run[i].pslot.notified || run[i].cslot.notified
  {
    RunInv(run, i);
    if |run[i].d.out| < |run[i].d.sent| {
      if !run[i].cslot.notified {
        PopWakeupNotLost(run, i);
      }
    } else if !run[i].pslot.notified {
      assert |run[i].d.sent| == |run[i].d.out|;
      PushWakeupNotLost(run, i);
    }
  }

  // ---------------- progress ----------------

  /** Whenever a push is pending, its progress cell counts exactly the items it has published, in order. */
  lemma PushProgressExact(run: seq<State>, i: nat)
    requires IsRun(run) && i < |run| && (run[i].k.p.Parked? || run[i].k.p.Future?)
    ensures var d := run[i].d;
            && d.pprogress < |d.items| && d.pbase + d.pprogress == |d.sent|
            && d.sent[d.pbase..] == d.items[..d.pprogress]
  {
    RunInv(run, i);
  }

  /** Whenever a pop is pending, its progress cell counts exactly the items it has taken, in order. */
  lemma PopProgressExact(run: seq<State>, i: nat)
    requires IsRun(run) && i < |run| && (run[i].k.c.Parked? || run[i].k.c.Future?)
    ensures var d := run[i].d;
            && d.cprogress == |d.got| < d.want && d.cbase <= |d.out|
            && d.got == d.out[d.cbase..]
  {
    RunInv(run, i);
  }

  /** The call that the producer is in ends with this step: everything has been moved. */
  predicate Completes(pc: Pc, pc': Pc) {
    pc.Signal? && pc.left == 0 && !pc.att.Direct? && pc' != pc
  }

  lemma PushReturns(s: State, a: Action)
    requires Shape(s.k, s.d) && Linked(s) && Enabled(s, a) && Completes(s.k.p, Apply(s, a).k.p)
    ensures var s' := Apply(s, a);
            && s'.d == (if s.k.p.att.Initial? then s.d.(pprogress := |s.d.items|) else s.d)
  {
    hide Room, Ready, SlotOf, Contiguous, StepArm, StepSignal, ConsumerData;
  }

  lemma PopReturns(s: State, a: Action)
    requires Shape(s.k, s.d) && Linked(s) && Enabled(s, a) && Completes(s.k.c, Apply(s, a).k.c)
    ensures var s' := Apply(s, a);
            && s'.d == (if s.k.c.att.Initial? then s.d.(cprogress := |s.d.got|) else s.d)
  {
    hide Room, Ready, SlotOf, Contiguous, StepArm, StepSignal, ProducerData;
  }

  /**
   When a counted push completes, its progress cell holds the length of the slice
   exactly when the opening attempt moved everything: a poll that completes the
   call leaves the cell behind.
   */
  lemma PushProgressAtCompletion(run: seq<State>, i: nat)
    requires IsRun(run) && i + 1 < |run| && Completes(run[i].k.p, run[i + 1].k.p)
    ensures var d := run[i + 1].d;
            && d.pbase + |d.items| == |d.sent| && d.sent[d.pbase..] == d.items
            && (d.pprogress == |d.items| <==> run[i].k.p.att.Initial?)
  {
    RunInv(run, i);
    assert Next(run[i], run[i + 1]);
    hide Apply, CopyInv, PopInv, Stored, WakeAll, CoreInv;
    var a :| Enabled(run[i], a) && run[i + 1] == Apply(run[i], a);
    PushReturns(run[i], a);
  }

  lemma PopProgressAtCompletion(run: seq<State>, i: nat)
    requires IsRun(run) && i + 1 < |run| && Completes(run[i].k.c, run[i + 1].k.c)
    ensures var d := run[i + 1].d;
            && |d.got| == d.want && d.cbase <= |d.out| && d.got == d.out[d.cbase..]
            && (d.cprogress == d.want <==> run[i].k.c.att.Initial?)
  {
    RunInv(run, i);
    assert Next(run[i], run[i + 1]);
    hide Apply, CopyInv, PushInv, Stored, WakeAll, CoreInv;
    var a :| Enabled(run[i], a) && run[i + 1] == Apply(run[i], a);
    PopReturns(run[i], a);
  }

  /** Every enabled action has its step: the well-formedness that a step asks for holds in every reachable state. */
  lemma EveryActionHasItsStep(run: seq<State>, i: nat, a: Action)
    requires IsRun(run) && i < |run| && Enabled(run[i], a)
    ensures Shape(run[i].k, run[i].d) && Linked(run[i]) && Next(run[i], Apply(run[i], a))
  {
    RunInv(run, i);
    InvLinked(run[i]);
    hide Inv, Apply;
  }
}

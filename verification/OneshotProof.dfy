/** The inductive invariant of the single-value channel, and what it guarantees of every run. */
module OneshotProof {
  import opened Wrappers
  import opened Notify
  import opened Oneshot

  /** The sender still has the value, or has written it and not yet published it. */
  predicate BeforePublish(s: SenderPc) {
    s.SLoad? || s.SWrite? || s.SStore?
  }

  /** The sender's calls and the bits it has set. */
  ghost predicate SenderBits(x: State) {
    && (x.bits.senderDropped <==> x.s.SDropSignal? || (x.s.SDone? && !x.bits.valueSet))
    && (x.s.SWrite? || x.s.SStore? ==> x.s.s == Bits(false, false, false, false))
    && (x.s.SIdle? || BeforePublish(x.s) || x.s.SDropOr? || x.s.SDropSignal? ==> !x.bits.valueSet)
    && (x.s.SSignal? ==> x.bits.valueSet)
    && (x.given.None? ==> x.s.SIdle? || x.s.SDropLoad? || x.s.SDropOr? || x.s.SDropSignal? || x.s.SDone?)
    && (x.s.SIdle? ==> x.given.None?)
    && (x.s.SLoad? || x.s.SWrite? ==> x.given == Some(x.s.v))
  }

  /** The receiver's calls and the bits it has set; only a publishing store can lose one. */
  ghost predicate ReceiverBits(x: State) {
    && (x.bits.receiverDropped ==> x.r.RDone?)
    && (x.r.RDone? ==> x.bits.receiverDropped || x.bits.valueSet)
    && (x.r.RTake? ==> x.r.s == x.bits && x.bits.valueSet && !x.bits.taken)
    && (x.r.RRead? ==> x.bits.taken)
    && (x.bits.taken ==> x.bits.valueSet)
    && (x.freed ==> x.s.SDone? && x.r.RDone?)
    && (x.parked ==> !x.r.RDropOr? && !x.r.RDone? && !x.r.RArm? && !x.r.RDisarm?)
    && (x.parked && (x.r.RLoad? || x.r.RTake? || x.r.RRead?) ==> x.r.m.Once?)
  }

  /** The value's whereabouts. */
  ghost predicate ValueInv(x: State) {
    && (x.bits.valueSet || x.s.SStore? ==> x.given.Some? && x.cell == x.given)
    && (if x.bits.valueSet then
          if x.bits.taken && !x.r.RRead? then x.fates == [Received(x.given.value)]
          else if x.freed then x.fates == [Dropped(x.given.value)]
          else x.fates == []
        else if x.given.None? || BeforePublish(x.s) then x.fates == []
        else x.fates == [HandedBack(x.given.value)] && x.bits.receiverDropped)
  }

  /** What the calls have reported so far. */
  ghost predicate OutcomeInv(x: State) {
    && (forall k :: 0 <= k < |x.outcomes| ==> x.outcomes[k].Got? ==> x.fates == [Received(x.outcomes[k].v)])
    && (forall j, k :: 0 <= j < |x.outcomes| && 0 <= k < |x.outcomes| && x.outcomes[j].Got? && x.outcomes[k].Got? ==> j == k)
    && (forall k :: 0 <= k < |x.outcomes| ==> x.outcomes[k].Closed? ==> x.bits.senderDropped || (x.bits.taken && !x.r.RRead?))
  }

  predicate Resolved(x: State) {
    x.bits.valueSet || x.bits.senderDropped
  }

  /** The receiver is between the return of its `arm` and its own look at the result. */
  predicate LooksAgain(r: ReceiverPc) {
    ((r.RLoad? || r.RTake? || r.RRead?) && r.m.Recheck?) || r.RDisarm?
  }

  /** The one signaller has yet to look at the flag. */
  predicate Undecided(slot: Slot) {
    0 in slot.signals && Early(slot.signals[0])
  }

  ghost predicate WakeInv(x: State) {
    && SlotInv(x.slot)
    && (x.r.RArm? <==> !AtRest(x.slot))
    && (forall id :: id in x.slot.signals <==> id == 0 && (x.s.SSignal? || x.s.SDropSignal?))
    && (x.parked || LooksAgain(x.r) ==> x.slot.wpc.On?)
    && (x.parked && x.slot.armed && Resolved(x) ==> Undecided(x.slot))
  }

  ghost predicate Inv(x: State) {
    SenderBits(x) && ReceiverBits(x) && ValueInv(x) && OutcomeInv(x) && WakeInv(x)
  }

  lemma SenderKeepsValue(x: State)
    requires Inv(x) && Linked(x) && SenderSteps(x.s)
    ensures var y := StepSender(x); SenderBits(y) && ReceiverBits(y) && ValueInv(y)
  {
    hide SlotInv, OutcomeInv, StepSignal;
  }

  lemma SenderKeepsOutcomes(x: State)
    requires Inv(x) && Linked(x) && SenderSteps(x.s)
    ensures OutcomeInv(StepSender(x))
  {
    hide SlotInv, StepSignal;
  }

  lemma SenderKeepsWake(x: State)
    requires Inv(x) && Linked(x) && SenderSteps(x.s)
    ensures WakeInv(StepSender(x))
  {
    hide SlotInv, ValueInv, OutcomeInv;
    if x.s.SStore? || x.s.SDropOr? {
      BeginSignalInv(x.slot, 0);
    } else if x.s.SSignal? || x.s.SDropSignal? {
      StepSignalInv(x.slot, 0);
      OtherSignallersKept(x.slot, 0);
    }
  }

  lemma ReceiverKeepsValue(x: State)
    requires Inv(x) && Linked(x) && ReceiverSteps(x.r)
    ensures var y := StepReceiver(x); SenderBits(y) && ReceiverBits(y) && ValueInv(y)
  {
    hide SlotInv, OutcomeInv, StepArm;
  }

  lemma ReceiverKeepsOutcomes(x: State)
    requires Inv(x) && Linked(x) && ReceiverSteps(x.r)
    ensures OutcomeInv(StepReceiver(x))
  {
    hide SlotInv, StepArm;
  }

  lemma ReceiverKeepsWake(x: State)
    requires Inv(x) && Linked(x) && ReceiverSteps(x.r)
    ensures WakeInv(StepReceiver(x))
  {
    hide SlotInv, ValueInv, OutcomeInv;
    if x.r.RArm? {
      StepArmInv(x.slot);
    } else if x.r.RDisarm? {
      DisarmInv(x.slot);
    } else if x.r.RLoad? && x.r.m.First? {
      BeginArmInv(x.slot, x.r.m.w);
    }
  }

  lemma StepInv(x: State, a: Action)
    requires Inv(x) && Linked(x) && Enabled(x, a)
    ensures Inv(Apply(x, a))
  {
    hide SlotInv, StepSender, StepReceiver;
    if a.SenderStep? {
      SenderKeepsValue(x);
      SenderKeepsOutcomes(x);
      SenderKeepsWake(x);
    } else if a.ReceiverStep? {
      ReceiverKeepsValue(x);
      ReceiverKeepsOutcomes(x);
      ReceiverKeepsWake(x);
    }
  }

  lemma {:induction false} RunInv(run: seq<State>, i: nat)
    requires IsRun(run) && i < |run|
    ensures Inv(run[i])
  {
    hide SlotInv, StepSender, StepReceiver;
    if i == 0 {
      NewSlotInv();
    } else {
      RunInv(run, i - 1);
      hide Inv, Apply, Linked;
      assert Next(run[i - 1], run[i - 1 + 1]);
      var a :| Enabled(run[i - 1], a) && run[i] == Apply(run[i - 1], a);
      StepInv(run[i - 1], a);
    }
  }

  // ---------------- what every run guarantees ----------------

  function FateOf(f: Fate): nat {
    match f
    case HandedBack(v) => v
    case Received(v) => v
    case Dropped(v) => v
  }

  /** The value given to `send` has at most one fate at any time, and exactly one once the channel is freed. */
  lemma OneFate(run: seq<State>, i: nat)
    requires IsRun(run) && i < |run|
    ensures var x := run[i];
            && |x.fates| <= 1
            && (|x.fates| == 1 ==> x.given == Some(FateOf(x.fates[0])))
            && (x.freed ==> (|x.fates| == 1 <==> x.given.Some?))
  {
    RunInv(run, i);
    hide WakeInv, OutcomeInv;
  }

  /** A value is handed back, or dropped with the cell, only when the receiver has gone. */
  lemma OnlyAbandonedValuesReturn(run: seq<State>, i: nat)
    requires IsRun(run) && i < |run| && |run[i].fates| == 1 && !run[i].fates[0].Received?
    ensures run[i].r.RDone?
  {
    RunInv(run, i);
    hide WakeInv, OutcomeInv;
  }

  /** The cell is read only when it holds the value, before any other fate, and never while the sender writes it. */
  lemma CellReadIsSound(run: seq<State>, i: nat)
    requires IsRun(run) && i < |run| && run[i].r.RRead?
    ensures var x := run[i]; x.cell.Some? && x.cell == x.given && x.fates == [] && !x.s.SWrite? && !x.freed
  {
    RunInv(run, i);
    hide WakeInv, OutcomeInv;
  }

  /** A receiver-dropped bit is lost only to a publishing store, and then the value is still received or dropped with the cell. */
  lemma LostBitMeansPublished(run: seq<State>, i: nat)
    requires IsRun(run) && i < |run| && run[i].r.RDone?
    ensures !run[i].bits.receiverDropped ==> run[i].bits.valueSet
    ensures run[i].freed && !run[i].bits.receiverDropped ==>
              run[i].given.Some? && run[i].fates in {[Received(run[i].given.value)], [Dropped(run[i].given.value)]}
  {
    RunInv(run, i);
    hide WakeInv, OutcomeInv;
  }

  /** At most one receive yields the value, and it is the value sent. */
  lemma DeliveredOnce(run: seq<State>, i: nat, j: nat, k: nat)
    requires IsRun(run) && i < |run|
    requires j < |run[i].outcomes| && k < |run[i].outcomes| && run[i].outcomes[j].Got?
    ensures run[i].given == Some(run[i].outcomes[j].v)
    ensures run[i].outcomes[k].Got? ==> j == k
  {
    RunInv(run, i);
    hide WakeInv;
  }

  /** `RecvError` is reported only once nothing more can arrive: no value was published, or it was already received. */
  lemma ClosedIsFinal(run: seq<State>, i: nat, k: nat)
    requires IsRun(run) && i < |run| && k < |run[i].outcomes| && run[i].outcomes[k].Closed?
    ensures var x := run[i];
            (x.bits.senderDropped && !x.bits.valueSet && !BeforePublish(x.s)) || (exists v :: x.fates == [Received(v)])
  {
    RunInv(run, i);
    hide WakeInv;
  }

  /** A pending receiver whose channel has resolved was woken, or the sender is still signalling. */
  lemma ReceiverWakeupNotLost(run: seq<State>, i: nat)
    requires IsRun(run) && i < |run|
    requires run[i].parked && Resolved(run[i]) && !run[i].slot.notified
    ensures run[i].s.SSignal? || run[i].s.SDropSignal?
  {
    RunInv(run, i);
    var slot := run[i].slot;
    hide WordInv, CellInv, ValueInv, OutcomeInv;
    if !slot.armed {
      var c :| c in slot.signals && Claims(slot.signals[c], slot.current);
      assert c in slot.signals;
    }
  }

  /** Once the sender is gone, a receiver that is still pending has been woken. */
  lemma SenderGoneMeansWoken(run: seq<State>, i: nat)
    requires IsRun(run) && i < |run|
    requires run[i].parked && run[i].s.SDone?
    ensures run[i].slot.notified
  {
    RunInv(run, i);
    if !run[i].slot.notified {
      hide WakeInv, OutcomeInv;
      ReceiverWakeupNotLost(run, i);
    }
  }

  /** Every enabled action has its step: the well-formedness that a step asks for holds in every reachable state. */
  lemma EveryActionHasItsStep(run: seq<State>, i: nat, a: Action)
    requires IsRun(run) && i < |run| && Enabled(run[i], a)
    ensures Linked(run[i]) && Next(run[i], Apply(run[i], a))
  {
    RunInv(run, i);
    hide SlotInv, Apply, SenderBits, ReceiverBits, ValueInv, OutcomeInv;
  }
}

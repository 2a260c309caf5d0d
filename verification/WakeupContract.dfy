/**
 The contract between a waiting task and its signallers, over a condition that
 the slot knows nothing about: publish then `signal` on one side, `arm` then
 re-check on the other.  The condition may also be withdrawn at any time.
 */
module WakeupContract {
  import opened Wrappers
  import opened Notify

  datatype Phase = Resting | Arming | Rechecking | Parked

  datatype Sys = Sys(slot: Slot, cond: bool, phase: Phase)

  datatype Action =
    | Poll(w: Waker)
    | ArmStep
    | Recheck
    | Cancel
    | Publish(id: nat)
    | Withdraw
    | SignalStep(id: nat)

  ghost predicate Enabled(s: Sys, a: Action) {
    match a
    case Poll(_) => s.phase.Resting? || s.phase.Parked?
    case ArmStep => s.phase.Arming?
    case Recheck => s.phase.Rechecking?
    case Cancel => s.phase.Parked?
    case Publish(id) => id !in s.slot.signals
    case Withdraw => true
    case SignalStep(id) => id in s.slot.signals
  }

  ghost function Apply(s: Sys, a: Action): Sys
    requires Shape(s) && Enabled(s, a)
  {
    match a
    case Poll(w) => s.(slot := BeginArm(s.slot, w), phase := Arming)
    case ArmStep =>
      var slot := StepArm(s.slot);
      s.(slot := slot, phase := if AtRest(slot) then Rechecking else Arming)
    case Recheck =>
      if s.cond then s.(slot := Disarm(s.slot), phase := Resting) else s.(phase := Parked)
    case Cancel => s.(phase := Resting)
    case Publish(id) => s.(slot := BeginSignal(s.slot, id), cond := true)
    case Withdraw => s.(cond := false)
    case SignalStep(id) => s.(slot := StepSignal(s.slot, id))
  }

  ghost predicate Shape(s: Sys) {
    && (s.phase.Arming? <==> !AtRest(s.slot))
    && (s.phase.Rechecking? || s.phase.Parked? ==> s.slot.wpc.On?)
  }

  ghost predicate Init(s: Sys) {
    s == Sys(NewSlot(), s.cond, Resting)
  }

  ghost predicate Next(s: Sys, s': Sys) {
    Shape(s) && exists a :: Enabled(s, a) && s' == Apply(s, a)
  }

  ghost predicate IsRun(run: seq<Sys>) {
    && |run| > 0
    && Init(run[0])
    && forall i :: 0 <= i < |run| - 1 ==> Next(run[i], run[i + 1])
  }

  /** A signaller that has published but not yet claimed the flag. */
  ghost predicate SomeUnclaimed(s: Slot) {
    exists id :: id in s.signals && Early(s.signals[id])
  }

  ghost predicate Inv(s: Sys) {
    && SlotInv(s.slot)
    && Shape(s)
    && (s.phase.Parked? && s.cond && s.slot.armed ==> SomeUnclaimed(s.slot))
  }

  lemma StepInv(s: Sys, a: Action)
    requires Inv(s) && Enabled(s, a)
    ensures Inv(Apply(s, a))
  {
    var s' := Apply(s, a);
    match a
    case Poll(w) => BeginArmInv(s.slot, w);
    case ArmStep => StepArmInv(s.slot);
    case Recheck => DisarmInv(s.slot);
    case Cancel =>
    case Withdraw =>
    case Publish(id) =>
      BeginSignalInv(s.slot, id);
      assert s'.slot.signals[id].LoadArmed?;
    case SignalStep(id) =>
      StepSignalInv(s.slot, id);
      OtherSignallersKept(s.slot, id);
      if s'.phase.Parked? && s'.cond && s'.slot.armed {
        var j :| j in s.slot.signals && Early(s.slot.signals[j]);
        assert j in s'.slot.signals && Early(s'.slot.signals[j]);
      }
  }

  lemma {:induction false} RunInv(run: seq<Sys>, i: nat)
    requires IsRun(run) && i < |run|
    ensures Inv(run[i])
  {
    if i == 0 {
      NewSlotInv();
    } else {
      RunInv(run, i - 1);
      assert Next(run[i - 1], run[i - 1 + 1]);
      var a :| Enabled(run[i - 1], a) && run[i] == Apply(run[i - 1], a);
      StepInv(run[i - 1], a);
    }
  }

  /** The waiting task is about to touch the waker cell. */
  predicate WaiterAtCell(s: Slot) {
    s.wpc.WriteCell? || s.wpc.TakeBack?
  }

  /** Signaller `id` is about to touch the waker cell. */
  predicate SignallerAtCell(s: Slot, id: nat) {
    id in s.signals && s.signals[id].TakeCell?
  }

  /** The waker cell never has two users, whatever the interleaving. */
  lemma CellNeverShared(run: seq<Sys>, i: nat, p: nat, q: nat)
    requires IsRun(run) && i < |run|
    ensures var s := run[i].slot;
            && !(WaiterAtCell(s) && SignallerAtCell(s, p))
            && (SignallerAtCell(s, p) && SignallerAtCell(s, q) ==> p == q)
  {
    RunInv(run, i);
  }

  /** `register` always finds the waker it takes back, and only ever a wake can have raced it. */
  lemma TakeBackFindsWaker(run: seq<Sys>, i: nat)
    requires IsRun(run) && i < |run|
    ensures run[i].slot.wpc.TakeBack? ==>
              run[i].slot.cell == Some(run[i].slot.current) && run[i].slot.word == REGISTERING + WAKING
  {
    RunInv(run, i);
  }

  /** A parked task whose condition holds has been woken, or a signaller is still at work. */
  lemma NoLostWakeup(run: seq<Sys>, i: nat)
    requires IsRun(run) && i < |run|
    requires run[i].phase.Parked? && run[i].cond && !run[i].slot.notified
    ensures exists id :: id in run[i].slot.signals
  {
    RunInv(run, i);
    var s := run[i].slot;
    if s.armed {
      assert SomeUnclaimed(s);
    } else {
      assert SomeClaim(s);
    }
  }

  /** Once no signal is in flight, a parked task whose condition holds has been woken. */
  lemma QuietMeansNotified(run: seq<Sys>, i: nat)
    requires IsRun(run) && i < |run|
    requires run[i].phase.Parked? && run[i].cond && run[i].slot.signals == map[]
    ensures run[i].slot.notified
  {
    if !run[i].slot.notified {
      NoLostWakeup(run, i);
    }
  }
}

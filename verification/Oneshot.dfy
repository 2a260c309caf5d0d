/**
 The single-value channel: a state byte and a value cell, written by one sender
 and one receiver, and freed when both handles are gone.

 `send` and `take_value` publish with plain stores of a state that they loaded
 earlier, so a bit that the other side sets in between is lost.
 */
module Oneshot {
  import opened Wrappers
  import opened Notify

  /** The state byte, one field per bit. */
  datatype Bits = Bits(valueSet: bool, senderDropped: bool, receiverDropped: bool, taken: bool)

  /** Where a value that was given to `send` ended. */
  datatype Fate = HandedBack(v: nat) | Received(v: nat) | Dropped(v: nat)

  /** What a receive call reports. */
  datatype Outcome = Got(v: nat) | NotYet | Closed

  /** The sender's next access. */
  datatype SenderPc =
    | SIdle
    | SLoad(v: nat)
    | SWrite(v: nat, s: Bits)
    | SStore(s: Bits)
    | SSignal
    | SDropLoad
    | SDropOr
    | SDropSignal
    | SDone

  /** `Once` is `try_recv`; `First` and `Recheck` are the two `resolve` calls of a poll. */
  datatype Mode = Once | First(w: Waker) | Recheck

  /** The receiver's next access. */
  datatype ReceiverPc =
    | RIdle
    | RLoad(m: Mode)
    | RTake(m: Mode, s: Bits)
    | RRead(m: Mode)
    | RArm
    | RDisarm
    | RDropOr
    | RDone

  /**
   `cell` keeps its bits after a read: only the state byte says whether they are
   still a value.  `given`, `fates` and `outcomes` are histories; `parked` says
   that the last poll was pending.
   */
  datatype State = State(bits: Bits, cell: Option<nat>, slot: Slot, s: SenderPc, r: ReceiverPc, parked: bool, freed: bool,
                         given: Option<nat>, fates: seq<Fate>, outcomes: seq<Outcome>)

  ghost predicate Init(x: State) {
    x == State(Bits(false, false, false, false), None, NewSlot(), SIdle, RIdle, false, false, None, [], [])
  }

  // ---------------- the sender ----------------

  predicate SenderSteps(s: SenderPc) {
    !s.SIdle? && !s.SDone?
  }

  function SignalStep(x: State, next: SenderPc): State
    requires 0 in x.slot.signals
  {
    var slot := StepSignal(x.slot, 0);
    x.(slot := slot, s := if 0 in slot.signals then x.s else next)
  }

  function StepSender(x: State): State
    requires x.s.SSignal? || x.s.SDropSignal? ==> 0 in x.slot.signals
  {
    match x.s
    case SIdle => x
    case SDone => x
    case SLoad(v) =>
      if x.bits.receiverDropped then x.(fates := x.fates + [HandedBack(v)], s := SDropLoad)
      else x.(s := SWrite(v, x.bits))
    case SWrite(v, s) => x.(cell := Some(v), s := SStore(s))
    case SStore(s) => x.(bits := s.(valueSet := true), slot := BeginSignal(x.slot, 0), s := SSignal)
    case SSignal => SignalStep(x, SDropLoad)
    case SDropLoad => x.(s := if x.bits.valueSet then SDone else SDropOr)
    case SDropOr => x.(bits := x.bits.(senderDropped := true), slot := BeginSignal(x.slot, 0), s := SDropSignal)
    case SDropSignal => SignalStep(x, SDone)
  }

  // ---------------- the receiver ----------------

  predicate ReceiverSteps(r: ReceiverPc) {
    !r.RIdle? && !r.RDone?
  }

  /** The call reports `o`; a poll that resolves after arming disarms first. */
  function Report(x: State, m: Mode, o: Outcome): State {
    x.(outcomes := x.outcomes + [o], r := if m.Recheck? then RDisarm else RIdle)
  }

  /** Nothing to report yet: `try_recv` says so, a first look goes on to arm, a second one leaves the poll pending. */
  function Unresolved(x: State, m: Mode): State
    requires AtRest(x.slot)
  {
    match m
    case Once => x.(outcomes := x.outcomes + [NotYet], r := RIdle)
    case First(w) => x.(slot := BeginArm(x.slot, w), r := RArm)
    case Recheck => x.(r := RIdle, parked := true)
  }

  function StepReceiver(x: State): State
    requires x.r.RArm? <==> !AtRest(x.slot)
  {
    match x.r
    case RIdle => x
    case RDone => x
    case RLoad(m) =>
      if x.bits.valueSet then
        if !x.bits.taken then x.(r := RTake(m, x.bits))
        else Report(x, m, if m.Once? then NotYet else Closed)
      else if x.bits.senderDropped then Report(x, m, Closed)
      else Unresolved(x, m)
    case RTake(m, s) => x.(bits := s.(taken := true), r := RRead(m))
    case RRead(m) =>
      if x.cell.Some? then Report(x.(fates := x.fates + [Received(x.cell.value)]), m, Got(x.cell.value))
      else Report(x, m, Closed)
    case RArm =>
      var slot := StepArm(x.slot);
      x.(slot := slot, r := if AtRest(slot) then RLoad(Recheck) else RArm)
    case RDisarm => x.(slot := Disarm(x.slot), r := RIdle)
    case RDropOr => x.(bits := x.bits.(receiverDropped := true), r := RDone)
  }

  // ---------------- the step relation ----------------

  datatype Action =
    | Send(v: nat)
    | DropSender
    | SenderStep
    | TryRecv
    | Poll(w: Waker)
    | DropReceiver
    | ReceiverStep
    | Teardown    // the last handle is gone: `Inner::drop`

  predicate Enabled(x: State, a: Action) {
    match a
    case Send(_) => x.s.SIdle?
    case DropSender => x.s.SIdle?
    case SenderStep => SenderSteps(x.s)
    case TryRecv => x.r.RIdle?
    case Poll(_) => x.r.RIdle?
    case DropReceiver => x.r.RIdle?
    case ReceiverStep => ReceiverSteps(x.r)
    case Teardown => x.s.SDone? && x.r.RDone? && !x.freed
  }

  predicate Linked(x: State) {
    && (x.r.RArm? <==> !AtRest(x.slot))
    && (x.s.SSignal? || x.s.SDropSignal? ==> 0 in x.slot.signals)
  }

  function Free(x: State): State {
    if x.bits.valueSet && !x.bits.taken && x.cell.Some?
    then x.(fates := x.fates + [Dropped(x.cell.value)], freed := true)
    else x.(freed := true)
  }

  function Apply(x: State, a: Action): State
    requires Linked(x) && Enabled(x, a)
  {
    match a
    case Send(v) => x.(s := SLoad(v), given := Some(v))
    case DropSender => x.(s := SDropLoad)
    case SenderStep => StepSender(x)
    case TryRecv => x.(r := RLoad(Once))
    case Poll(w) => x.(r := RLoad(First(w)), parked := false)
    case DropReceiver => x.(r := RDropOr, parked := false)
    case ReceiverStep => StepReceiver(x)
    case Teardown => Free(x)
  }

  ghost predicate Next(x: State, x': State) {
    Linked(x) && exists a :: Enabled(x, a) && x' == Apply(x, a)
  }

  ghost predicate IsRun(run: seq<State>) {
    && |run| > 0
    && Init(run[0])
    && forall i :: 0 <= i < |run| - 1 ==> Next(run[i], run[i + 1])
  }
}

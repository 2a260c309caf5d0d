/**
 The wakeup core that every cross-thread primitive shares: an `AtomicWaker`
 (state word plus waker cell) behind an `armed` flag.

 One task arms the slot; any number of signallers may be inside `signal` at
 once.  Every load, store and read-modify-write is one step, so a `Slot` value
 also records where each party stands in its call.
 */
module Notify {
  import opened Wrappers

  /** Identity of a task's waker: two wakers that `will_wake` each other are equal. */
  type Waker = nat

  const WAITING: nat := 0
  const REGISTERING: nat := 1
  const WAKING: nat := 2

  /** What the waiting task does next inside `arm`; `Off` and `On` are outside it. */
  datatype WaiterPc =
    | Off          // never armed, or disarmed
    | On           // the last `arm` has returned
    | Lock         // compare-exchange WAITING -> REGISTERING
    | WriteCell    // store the waker (skipped in effect when it is the same one)
    | Unlock       // compare-exchange REGISTERING -> WAITING
    | TakeBack     // a wake raced: take the waker out again
    | Reopen       // swap the state word to WAITING
    | FireOwn      // wake the waker just taken out
    | FireDirect   // the lock was busy: wake the new waker at once
    | SetArmed     // store `armed`

  /** What one signaller does next inside `signal`. */
  datatype SignalPc =
    | LoadArmed
    | SwapArmed
    | FetchOr
    | TakeCell
    | FetchAnd(taken: Option<Waker>)
    | Fire(waker: Waker)

  /**
   `current` is the waker of the latest `arm`; `notified` says that this waker
   has been woken since that `arm` began.
   */
  datatype Slot = Slot(word: nat, cell: Option<Waker>, armed: bool,
                       wpc: WaiterPc, current: Waker, notified: bool,
                       signals: map<nat, SignalPc>)

  function NewSlot(): Slot {
    Slot(WAITING, None, false, Off, 0, false, map[])
  }

  predicate AtRest(s: Slot) {
    s.wpc.Off? || s.wpc.On?
  }

  function Woken(s: Slot, w: Waker): Slot {
    if w == s.current then s.(notified := true) else s
  }

  // ---------------- the waiting side ----------------

  function BeginArm(s: Slot, w: Waker): Slot
    requires AtRest(s)
  {
    s.(wpc := Lock, current := w, notified := false)
  }

  /** One atomic step of `arm`. */
  function StepArm(s: Slot): Slot
    requires !AtRest(s)
  {
    match s.wpc
    case Off => s
    case On => s
    case Lock =>
      if s.word == WAITING then s.(word := REGISTERING, wpc := WriteCell)
      else s.(wpc := FireDirect)
    case WriteCell => s.(cell := Some(s.current), wpc := Unlock)
    case Unlock =>
      if s.word == REGISTERING then s.(word := WAITING, wpc := SetArmed)
      else s.(wpc := TakeBack)
    case TakeBack => s.(cell := None, wpc := Reopen)
    case Reopen => s.(word := WAITING, wpc := FireOwn)
    case FireOwn => Woken(s, s.current).(wpc := SetArmed)
    case FireDirect => Woken(s, s.current).(wpc := SetArmed)
    case SetArmed => s.(armed := true, wpc := On)
  }

  function Disarm(s: Slot): Slot
    requires AtRest(s)
  {
    s.(armed := false, wpc := Off)
  }

  // ---------------- the signalling side ----------------

  function BeginSignal(s: Slot, id: nat): Slot {
    s.(signals := s.signals[id := LoadArmed])
  }

  function Goto(s: Slot, id: nat, pc: SignalPc): Slot {
    s.(signals := s.signals[id := pc])
  }

  function Return(s: Slot, id: nat): Slot {
    s.(signals := s.signals - {id})
  }

  function WithWaking(word: nat): nat {
    if word == WAITING then WAKING
    else if word == REGISTERING then REGISTERING + WAKING
    else word
  }

  function WithoutWaking(word: nat): nat {
    if word == WAKING then WAITING
    else if word == REGISTERING + WAKING then REGISTERING
    else word
  }

  /** One atomic step of signaller `id` inside `signal`. */
  function StepSignal(s: Slot, id: nat): Slot
    requires id in s.signals
  {
    match s.signals[id]
    case LoadArmed =>
      if s.armed then Goto(s, id, SwapArmed) else Return(s, id)
    case SwapArmed =>
      if s.armed then Goto(s.(armed := false), id, FetchOr) else Return(s, id)
    case FetchOr =>
      var s' := s.(word := WithWaking(s.word));
      if s.word == WAITING then Goto(s', id, TakeCell) else Return(s', id)
    case TakeCell =>
      Goto(s.(cell := None), id, FetchAnd(s.cell))
    case FetchAnd(taken) =>
      var s' := s.(word := WithoutWaking(s.word));
      if taken.Some? then Goto(s', id, Fire(taken.value)) else Return(s', id)
    case Fire(w) =>
      Return(Woken(s, w), id)
  }

  // ---------------- the invariant ----------------

  predicate Registering(pc: WaiterPc) {
    pc.WriteCell? || pc.Unlock? || pc.TakeBack? || pc.Reopen?
  }

  /** A signaller that owns the WAKING lock. */
  predicate Holds(pc: SignalPc) {
    pc.TakeCell? || pc.FetchAnd?
  }

  /** A signaller that has the waker `w` in hand and will fire it. */
  predicate Carries(pc: SignalPc, w: Waker) {
    pc == FetchAnd(Some(w)) || pc == Fire(w)
  }

  /** A signaller that has claimed the flag and has not yet fired. */
  predicate Claims(pc: SignalPc, w: Waker) {
    pc.FetchOr? || pc.TakeCell? || Carries(pc, w)
  }

  /** A signaller that has yet to look at the flag. */
  predicate Early(pc: SignalPc) {
    pc.LoadArmed? || pc.SwapArmed?
  }

  ghost predicate SomeHolder(s: Slot) {
    exists id :: id in s.signals && Holds(s.signals[id])
  }

  ghost predicate SomeCarrier(s: Slot) {
    exists id :: id in s.signals && Carries(s.signals[id], s.current)
  }

  ghost predicate SomeClaim(s: Slot) {
    exists id :: id in s.signals && Claims(s.signals[id], s.current)
  }

  ghost predicate WordInv(s: Slot) {
    && s.word <= 3
    && (Registering(s.wpc) <==> s.word == REGISTERING || s.word == REGISTERING + WAKING)
    && (s.word == WAKING <==> SomeHolder(s))
    && (forall i, j :: i in s.signals && j in s.signals && Holds(s.signals[i]) && Holds(s.signals[j]) ==> i == j)
    && (s.wpc.TakeBack? || s.wpc.Reopen? ==> s.word == REGISTERING + WAKING)
  }

  ghost predicate CellInv(s: Slot) {
    && (forall id :: id in s.signals && s.signals[id].FetchAnd? ==> s.cell.None?)
    && (s.wpc.Unlock? || s.wpc.TakeBack? ==> s.cell == Some(s.current))
    && ((s.wpc.SetArmed? || s.wpc.On?) && !s.notified ==> s.cell == Some(s.current) || SomeCarrier(s))
  }

  ghost predicate SlotInv(s: Slot) {
    && WordInv(s)
    && CellInv(s)
    && (s.wpc.On? && !s.notified ==> s.armed || SomeClaim(s))
  }

  lemma NewSlotInv()
    ensures SlotInv(NewSlot())
  {
  }

  lemma BeginArmInv(s: Slot, w: Waker)
    requires SlotInv(s) && AtRest(s)
    ensures SlotInv(BeginArm(s, w))
  {
    var s' := BeginArm(s, w);
    assert s'.signals == s.signals;
    assert SomeHolder(s') <==> SomeHolder(s);
  }

  lemma DisarmInv(s: Slot)
    requires SlotInv(s) && AtRest(s)
    ensures SlotInv(Disarm(s))
  {
    var s' := Disarm(s);
    assert SomeHolder(s') <==> SomeHolder(s);
  }

  lemma BeginSignalInv(s: Slot, id: nat)
    requires SlotInv(s) && id !in s.signals
    ensures SlotInv(BeginSignal(s, id))
  {
    var s' := BeginSignal(s, id);
    assert forall j :: j in s.signals ==> j in s'.signals && s'.signals[j] == s.signals[j];
    if SomeHolder(s') {
      var h :| h in s'.signals && Holds(s'.signals[h]);
      assert h in s.signals;
    }
  }

  /** A signaller's step touches no other signaller. */
  lemma OtherSignallersKept(s: Slot, id: nat)
    requires id in s.signals
    ensures var s' := StepSignal(s, id);
            && (forall j :: j != id ==> (j in s.signals <==> j in s'.signals))
            && (forall j :: j != id && j in s.signals ==> s'.signals[j] == s.signals[j])
            && s'.current == s.current && s'.wpc == s.wpc
            && (s'.armed ==> s.armed) && (s.notified ==> s'.notified)
  {
  }

  lemma StepArmInv(s: Slot)
    requires SlotInv(s) && !AtRest(s)
    ensures SlotInv(StepArm(s))
  {
    var s' := StepArm(s);
    assert s'.signals == s.signals;
    assert SomeHolder(s') <==> SomeHolder(s);
    assert s'.current == s.current;
    assert SomeCarrier(s') <==> SomeCarrier(s);
    assert SomeClaim(s') <==> SomeClaim(s);
  }

  /** Claiming or releasing the WAKING lock. */
  lemma StepSignalLock(s: Slot, id: nat)
    requires SlotInv(s) && id in s.signals && (s.signals[id].FetchOr? || s.signals[id].FetchAnd?)
    ensures WordInv(StepSignal(s, id))
  {
    var s' := StepSignal(s, id);
    OtherSignallersKept(s, id);
    hide CellInv, SomeClaim;
    if SomeHolder(s) {
      var h :| h in s.signals && Holds(s.signals[h]);
      assert h != id ==> h in s'.signals && Holds(s'.signals[h]);
    }
    if s.signals[id].FetchOr? && s.word == WAITING {
      assert id in s'.signals && Holds(s'.signals[id]);
    }
    if SomeHolder(s') {
      var h :| h in s'.signals && Holds(s'.signals[h]);
      assert h != id ==> h in s.signals && Holds(s.signals[h]);
    }
  }

  /** The other steps leave the state word and its holder alone. */
  lemma StepSignalOutside(s: Slot, id: nat)
    requires SlotInv(s) && id in s.signals && !s.signals[id].FetchOr? && !s.signals[id].FetchAnd?
    ensures WordInv(StepSignal(s, id))
  {
    var s' := StepSignal(s, id);
    OtherSignallersKept(s, id);
    hide CellInv, SomeClaim;
    assert s'.word == s.word && s'.wpc == s.wpc;
    forall h
      ensures h in s'.signals && Holds(s'.signals[h]) <==> h in s.signals && Holds(s.signals[h])
    {
    }
    assert SomeHolder(s') <==> SomeHolder(s);
  }

  lemma StepSignalWord(s: Slot, id: nat)
    requires SlotInv(s) && id in s.signals
    ensures WordInv(StepSignal(s, id))
  {
    hide SlotInv, WordInv, StepSignal;
    if s.signals[id].FetchOr? || s.signals[id].FetchAnd? {
      StepSignalLock(s, id);
    } else {
      StepSignalOutside(s, id);
    }
  }

  lemma StepSignalCell(s: Slot, id: nat)
    requires SlotInv(s) && id in s.signals
    ensures CellInv(StepSignal(s, id))
  {
    var s' := StepSignal(s, id);
    OtherSignallersKept(s, id);
    if (s'.wpc.SetArmed? || s'.wpc.On?) && !s'.notified && s'.cell != Some(s'.current) {
      if s.cell == Some(s.current) {
        assert id in s'.signals && Carries(s'.signals[id], s'.current);
      } else {
        var c :| c in s.signals && Carries(s.signals[c], s.current);
        assert c in s'.signals && Carries(s'.signals[c], s'.current);
      }
    }
  }

  /** Whoever holds the WAKING lock while the waker is not yet woken is bound to fire it. */
  lemma HolderClaims(s: Slot)
    requires SlotInv(s) && s.wpc.On? && !s.notified && s.word == WAKING
    ensures exists j :: j in s.signals && Claims(s.signals[j], s.current) && !s.signals[j].FetchOr?
  {
    var h :| h in s.signals && Holds(s.signals[h]);
    if s.signals[h].TakeCell? {
      assert Claims(s.signals[h], s.current);
    } else {
      assert s.cell.None?;
      var c :| c in s.signals && Carries(s.signals[c], s.current);
      assert Claims(s.signals[c], s.current);
    }
  }

  lemma StepSignalCover(s: Slot, id: nat)
    requires SlotInv(s) && id in s.signals
    ensures var s' := StepSignal(s, id); s'.wpc.On? && !s'.notified ==> s'.armed || SomeClaim(s')
  {
    var s' := StepSignal(s, id);
    OtherSignallersKept(s, id);
    if s'.wpc.On? && !s'.notified && !s'.armed {
      match s.signals[id]
      case LoadArmed =>
        var c :| c in s.signals && Claims(s.signals[c], s.current);
        assert Claims(s'.signals[c], s'.current);
      case SwapArmed =>
        if s.armed {
          assert Claims(s'.signals[id], s'.current);
        } else {
          var c :| c in s.signals && Claims(s.signals[c], s.current);
          assert Claims(s'.signals[c], s'.current);
        }
      case FetchOr =>
        if s.word == WAITING {
          assert Claims(s'.signals[id], s'.current);
        } else {
          HolderClaims(s);
          var c :| c in s.signals && Claims(s.signals[c], s.current) && !s.signals[c].FetchOr?;
          assert Claims(s'.signals[c], s'.current);
        }
      case TakeCell =>
        if s.cell == Some(s.current) {
          assert Claims(s'.signals[id], s'.current);
        } else {
          var c :| c in s.signals && Carries(s.signals[c], s.current);
          assert Claims(s'.signals[c], s'.current);
        }
      case FetchAnd(taken) =>
        if taken == Some(s.current) {
          assert Claims(s'.signals[id], s'.current);
        } else {
          var c :| c in s.signals && Claims(s.signals[c], s.current);
          assert Claims(s'.signals[c], s'.current);
        }
      case Fire(w) =>
        var c :| c in s.signals && Claims(s.signals[c], s.current);
        assert Claims(s'.signals[c], s'.current);
    }
  }

  lemma StepSignalInv(s: Slot, id: nat)
    requires SlotInv(s) && id in s.signals
    ensures SlotInv(StepSignal(s, id))
  {
    StepSignalWord(s, id);
    StepSignalCell(s, id);
    StepSignalCover(s, id);
  }
}

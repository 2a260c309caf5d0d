/** The inductive invariant of the multi-producer channel. */
module MpscLightProof {
  import opened Wrappers
  import opened Notify
  import opened MpscChannel
  import opened MpscLight

  // ---------------- the parts of the invariant ----------------

  /** Call `c` holds wait-list id `id`. */
  predicate HasId(c: Call, id: nat) {
    c.parked == Some(id) || c.pc == Repolling(id)
  }

  ghost predicate Items(s: State) {
    && s.accepted == s.delivered + s.staging + s.ch.queue
    && |s.staging| <= s.ch.cap
    && (s.rx.RSteal? ==> s.staging == [])
  }

  /** The call still holds the one item it was given. */
  predicate SingleItem(pc: CallPc) {
    !pc.ManyChecking? && !pc.ManyPushing? && !pc.Signalling? && !pc.Returned?
  }

  /** The receiver is running inside `signal` on behalf of call `f` exactly while the call says so. */
  ghost predicate CallsInv(s: State) {
    && (forall sd :: sd in s.live ==> sd < s.nextCall)
    && (forall id :: id in s.slot.signals ==> id < s.nextCall)
    && (forall f :: f in s.calls ==>
          && f < s.nextCall
          && s.calls[f].owner in s.live
          && (s.calls[f].parked.Some? ==> s.calls[f].pc.Rest?)
          && (SingleItem(s.calls[f].pc) ==> s.calls[f].vals != [])
          && (s.calls[f].pc.Signalling? <==> f in s.slot.signals))
  }

  predicate Listed(ch: Chan, id: nat) {
    id in ch.q || id in ch.selected
  }

  /** Every id on the lists belongs to exactly one live call, and every registration is on a list until the flush. */
  ghost predicate Registered(ch: Chan, calls: map<nat, Call>, issued: map<nat, nat>, flushed: bool) {
    && (forall id :: id in issued ==> id < ch.nextId)
    && (forall id :: Listed(ch, id) ==> id in issued && issued[id] in calls && HasId(calls[issued[id]], id))
    && (forall f, id :: f in calls && HasId(calls[f], id) ==>
          id in issued && issued[id] == f && (!flushed ==> Listed(ch, id)))
  }

  ghost predicate FlushInv(s: State) {
    && (s.flushed ==> s.ch.closed && s.ch.q == [] && s.ch.selected == {})
    && (s.ch.closed <==> s.rx.RFlushing? || s.rx.RGone?)
    && (s.flushed <==> s.rx.RGone?)
  }

  /** A woken registration has been notified, or its wake is on the way. */
  ghost predicate Noted(selected: set<nat>, calls: map<nat, Call>, wakes: set<nat>, flushed: bool) {
    forall f :: f in calls && calls[f].parked.Some? && (calls[f].parked.value in selected || flushed) ==>
      calls[f].notified || calls[f].parked.value in wakes
  }

  predicate Returning(pc: CallPc) {
    pc == Checking(true) || pc == Pushing(true)
  }

  ghost predicate SomeReturning(calls: map<nat, Call>) {
    exists f :: f in calls && Returning(calls[f].pc)
  }

  ghost predicate Credits(ch: Chan, calls: map<nat, Call>) {
    !ch.closed ==> Credit(ch) || SomeReturning(calls)
  }

  ghost predicate SignalDue(slot: Slot) {
    exists id :: id in slot.signals && Early(slot.signals[id])
  }

  predicate PastSenders(rx: RxPc) {
    rx.RParkLen? || rx.RParkWake? || rx.RParked?
  }

  predicate PastSteal(rx: RxPc) {
    PastSenders(rx) || rx == RSenders(Recheck)
  }

  predicate Rechecking(rx: RxPc) {
    PastSteal(rx) || ((rx.RNext? || rx.RLen? || rx.RWake? || rx.RSteal?) && rx.ctx.Recheck?)
  }

  ghost predicate SlotWired(slot: Slot, rx: RxPc) {
    && SlotInv(slot)
    && (rx.RArm? <==> !AtRest(slot))
    && (Rechecking(rx) ==> slot.wpc.On?)
  }

  ghost predicate RecvWake(slot: Slot, rx: RxPc, filled: bool, deserted: bool) {
    slot.armed && ((PastSteal(rx) && filled) || (PastSenders(rx) && deserted)) ==> SignalDue(slot)
  }

  predicate FinalLook(rx: RxPc) {
    rx.RDisarmFinal? || ((rx.RNext? || rx.RLen? || rx.RWake? || rx.RSteal?) && Final(rx.ctx))
  }

  ghost predicate EndInv(s: State) {
    && (FinalLook(s.rx) ==> s.live == {})
    && (s.ended ==> s.live == {} && s.staging == [] && s.ch.queue == [])
    && (s.rx.RSenders? ==> s.rx.ctx.Once? || s.rx.ctx.First? || s.rx.ctx.Recheck?)
  }

  ghost predicate Inv(s: State) {
    && ChanInv(s.ch)
    && Items(s)
    && CallsInv(s)
    && Registered(s.ch, s.calls, s.issued, s.flushed)
    && FlushInv(s)
    && Noted(s.ch.selected, s.calls, s.wakes, s.flushed)
    && Credits(s.ch, s.calls)
    && SlotWired(s.slot, s.rx)
    && RecvWake(s.slot, s.rx, s.ch.queue != [], s.live == {})
    && EndInv(s)
  }

  lemma InitInv(s: State)
    requires Init(s)
    ensures Inv(s)
  {
    NewSlotInv();
  }

  lemma InvReady(s: State)
    requires Inv(s)
    ensures Ready(s)
  {
    hide SlotInv, Registered, Noted, Credits, RecvWake, EndInv, Items;
  }

  // ---------------- frames ----------------

  /** A call may change, or go, as long as it holds no id before and after. */
  lemma RegisteredFrame(ch: Chan, calls: map<nat, Call>, issued: map<nat, nat>, flushed: bool, f: nat, c: Call)
    requires Registered(ch, calls, issued, flushed)
    requires f in calls ==> forall id :: HasId(calls[f], id) <==> HasId(c, id)
    requires f !in calls ==> forall id :: !HasId(c, id)
    ensures Registered(ch, calls[f := c], issued, flushed)
  {
  }

  lemma NotedFrame(selected: set<nat>, calls: map<nat, Call>, wakes: set<nat>, flushed: bool, f: nat, c: Call)
    requires Noted(selected, calls, wakes, flushed)
    requires c.parked.Some? ==> f in calls && calls[f].parked == c.parked && (calls[f].notified ==> c.notified)
    ensures Noted(selected, calls[f := c], wakes, flushed)
  {
  }

  lemma CreditsFrame(ch: Chan, calls: map<nat, Call>, f: nat, c: Call)
    requires Credits(ch, calls)
    requires f in calls && Returning(calls[f].pc) ==> Returning(c.pc)
    ensures Credits(ch, calls[f := c])
  {
    if !ch.closed && !Credit(ch) {
      var g :| g in calls && Returning(calls[g].pc);
      assert g in calls[f := c] && Returning(calls[f := c][g].pc);
    }
  }

  lemma SignalAdds(slot: Slot, id: nat)
    ensures SignalDue(BeginSignal(slot, id))
  {
    assert BeginSignal(slot, id).signals[id].LoadArmed?;
  }

  lemma SignalStepWake(slot: Slot, id: nat, rx: RxPc, filled: bool, deserted: bool)
    requires SlotWired(slot, rx) && RecvWake(slot, rx, filled, deserted) && id in slot.signals
    ensures SlotWired(StepSignal(slot, id), rx) && RecvWake(StepSignal(slot, id), rx, filled, deserted)
  {
    hide SlotInv;
    StepSignalInv(slot, id);
    OtherSignallersKept(slot, id);
    var slot' := StepSignal(slot, id);
    if slot'.armed && ((PastSteal(rx) && filled) || (PastSenders(rx) && deserted)) {
      var j :| j in slot.signals && Early(slot.signals[j]);
      assert j in slot'.signals && Early(slot'.signals[j]);
    }
  }

  lemma BeginSignalWake(slot: Slot, id: nat, rx: RxPc, filled: bool, deserted: bool)
    requires SlotWired(slot, rx) && id !in slot.signals
    ensures SlotWired(BeginSignal(slot, id), rx) && RecvWake(BeginSignal(slot, id), rx, filled, deserted)
  {
    hide SlotInv;
    BeginSignalInv(slot, id);
    SignalAdds(slot, id);
  }

  // ---------------- senders' calls ----------------

  /** A call that touches neither the lists nor the slot moves on. */
  lemma MoveInv(s: State, f: nat, pc: CallPc)
    requires Inv(s) && f in s.calls
    requires !s.calls[f].pc.Rest? && !s.calls[f].pc.Repolling? && !s.calls[f].pc.Signalling?
    requires !pc.Rest? && !pc.Repolling? && !pc.Signalling?
    requires Returning(s.calls[f].pc) ==> Returning(pc) || s.ch.closed || s.ch.queue != []
    requires SingleItem(pc) ==> SingleItem(s.calls[f].pc)
    ensures Inv(MoveTo(s, f, pc))
  {
    hide SlotInv, ChanInv, Registered, Noted, Credits, RecvWake, SlotWired;
    var c := s.calls[f].(pc := pc);
    RegisteredFrame(s.ch, s.calls, s.issued, s.flushed, f, c);
    NotedFrame(s.ch.selected, s.calls, s.wakes, s.flushed, f, c);
    if Returning(s.calls[f].pc) && !Returning(pc) {
      NoWaitCredits(s.ch, s.calls[f := c]);
    } else {
      CreditsFrame(s.ch, s.calls, f, c);
    }
  }

  lemma NoWaitCredits(ch: Chan, calls: map<nat, Call>)
    requires ch.closed || ch.queue != []
    ensures Credits(ch, calls)
  {
  }

  lemma AcceptInv(s: State, f: nat, ch: Chan, n: nat)
    requires Inv(s) && f in s.calls
    requires !s.calls[f].pc.Rest? && !s.calls[f].pc.Repolling? && !s.calls[f].pc.Signalling?
    requires 0 < n <= |s.calls[f].vals|
    requires ChanInv(ch) && ch == s.ch.(queue := s.ch.queue + s.calls[f].vals[..n], nonempty := true)
    ensures Inv(Accept(s, f, ch, n))
  {
    hide SlotInv, ChanInv, Registered, Noted, Credits, RecvWake, SlotWired;
    var c := s.calls[f].(pc := Signalling, vals := s.calls[f].vals[n..]);
    RegisteredFrame(s.ch, s.calls, s.issued, s.flushed, f, c);
    RegisteredSame(s.ch, ch, s.calls[f := c], s.issued, s.flushed);
    NotedFrame(s.ch.selected, s.calls, s.wakes, s.flushed, f, c);
    NoWaitCredits(ch, s.calls[f := c]);
    BeginSignalWake(s.slot, f, s.rx, true, s.live == {});
    assert s.ended ==> false;
  }

  /** The lists may be rearranged as long as they hold the same ids. */
  lemma RegisteredSame(ch: Chan, ch': Chan, calls: map<nat, Call>, issued: map<nat, nat>, flushed: bool)
    requires Registered(ch, calls, issued, flushed)
    requires ch'.nextId == ch.nextId && forall id :: Listed(ch', id) <==> Listed(ch, id)
    ensures Registered(ch', calls, issued, flushed)
  {
  }

  /** A call that gives up its id takes exactly that id off the lists. */
  lemma RegisteredLess(ch: Chan, ch': Chan, calls: map<nat, Call>, issued: map<nat, nat>, flushed: bool, f: nat, id: nat, c: Call)
    requires Registered(ch, calls, issued, flushed) && f in calls && HasId(calls[f], id)
    requires forall x :: HasId(calls[f], x) ==> x == id
    requires forall x :: !HasId(c, x)
    requires ch'.nextId == ch.nextId && forall x :: Listed(ch', x) <==> Listed(ch, x) && x != id
    ensures Registered(ch', calls[f := c], issued, flushed)
    ensures Registered(ch', calls - {f}, issued, flushed)
  {
    var calls', less := calls[f := c], calls - {f};
    forall x | Listed(ch', x)
      ensures x in issued && issued[x] in calls' && HasId(calls'[issued[x]], x) && issued[x] in less && HasId(less[issued[x]], x)
    {
      assert Listed(ch, x) && HasId(calls[issued[x]], x);
    }
    forall g, x | g in calls' && HasId(calls'[g], x)
      ensures g != f && x in issued && issued[x] == g && (!flushed ==> Listed(ch', x))
    {
      assert g in calls && HasId(calls[g], x);
    }
  }

  /** A call that parks puts exactly one fresh id on the lists. */
  lemma RegisteredMore(ch: Chan, ch': Chan, calls: map<nat, Call>, issued: map<nat, nat>, flushed: bool, f: nat, c: Call)
    requires Registered(ch, calls, issued, flushed) && f in calls
    requires forall x :: !HasId(calls[f], x)
    requires forall x :: HasId(c, x) <==> x == ch.nextId
    requires ch'.nextId == ch.nextId + 1
    requires forall x :: Listed(ch', x) <==> Listed(ch, x) || x == ch.nextId
    ensures Registered(ch', calls[f := c], issued[ch.nextId := f], flushed)
  {
    var issued' := issued[ch.nextId := f];
    var calls' := calls[f := c];
    forall id | Listed(ch', id)
      ensures id in issued' && issued'[id] in calls' && HasId(calls'[issued'[id]], id)
    {
      if id != ch.nextId {
        assert Listed(ch, id) && issued[id] != f;
      } else {
        assert HasId(c, id);
      }
    }
    forall g, id | g in calls' && HasId(calls'[g], id)
      ensures id in issued' && issued'[id] == g && (!flushed ==> Listed(ch', id))
    {
      if g != f {
        assert g in calls && HasId(calls[g], id);
      }
    }
  }

  lemma NotedRemove(selected: set<nat>, calls: map<nat, Call>, wakes: set<nat>, flushed: bool, f: nat)
    requires Noted(selected, calls, wakes, flushed)
    ensures Noted(selected, calls - {f}, wakes, flushed)
  {
  }

  lemma NotedLess(selected: set<nat>, selected': set<nat>, calls: map<nat, Call>, wakes: set<nat>, wakes': set<nat>, flushed: bool)
    requires Noted(selected, calls, wakes, flushed) && wakes <= wakes'
    requires forall id :: id in selected' ==> id in selected || id in wakes'
    ensures Noted(selected', calls, wakes', flushed)
  {
  }

  /** A re-polled call leaves the lists and becomes the one that will push or park. */
  lemma RepollStepInv(s: State, f: nat)
    requires Inv(s) && f in s.calls && s.calls[f].pc.Repolling? && CallReady(s, f)
    ensures Inv(StepCall(s, f))
  {
    hide SlotInv, ChanInv, RecvWake, SlotWired, EndInv, Registered, Noted, Repoll, Credit;
    var id := s.calls[f].pc.id;
    var s' := StepCall(s, f);
    var c := s'.calls[f];
    RepollInv(s.ch, id);
    RepollLists(s.ch, id);
    assert f in s'.calls && Returning(s'.calls[f].pc);
    RegisteredLess(s.ch, s'.ch, s.calls, s.issued, s.flushed, f, id, c);
    NotedFrame(s.ch.selected, s.calls, s.wakes, s.flushed, f, c);
    NotedLess(s.ch.selected, s'.ch.selected, s'.calls, s.wakes, s.wakes, s.flushed);
    EndSame(s, s');
  }

  lemma RepollLists(ch: Chan, id: nat)
    requires ChanInv(ch)
    ensures var ch' := Repoll(ch, id);
            && (forall x :: Listed(ch', x) <==> Listed(ch, x) && x != id)
            && ch'.selected <= ch.selected && ch'.nextId == ch.nextId
            && ch'.queue == ch.queue && ch'.closed == ch.closed && ch'.cap == ch.cap
            && (ch.q == [] ==> ch'.q == [])
  {
    RepollInv(ch, id);
  }

  lemma EndSame(s: State, s': State)
    requires EndInv(s)
    requires s'.rx == s.rx && s'.live == s.live && s'.ended == s.ended && s'.staging == s.staging
    requires s'.ch.queue == s.ch.queue
    ensures EndInv(s')
  {
  }

  lemma ParkStepInv(s: State, f: nat)
    requires Inv(s) && f in s.calls && s.calls[f].pc.Parking? && CallReady(s, f)
    requires PushOrPark(s.ch, s.calls[f].vals[0]).1.Parked?
    ensures Inv(StepCall(s, f))
  {
    hide SlotInv, ChanInv, RecvWake, SlotWired, EndInv, Credits, Registered, Noted;
    var s' := StepCall(s, f);
    var c := s'.calls[f];
    PushInv(s.ch, s.calls[f].vals[0], []);
    ParkLists(s.ch, s.calls[f].vals[0]);
    NoWaitCredits(s'.ch, s'.calls);
    RegisteredMore(s.ch, s'.ch, s.calls, s.issued, s.flushed, f, c);
    ParkNotes(s.ch.selected, s.calls, s.wakes, f, c);
    EndSame(s, s');
  }

  lemma ParkLists(ch: Chan, v: Item)
    requires ChanInv(ch) && PushOrPark(ch, v).1.Parked?
    ensures var ch' := PushOrPark(ch, v).0;
            && (forall x :: Listed(ch', x) <==> Listed(ch, x) || x == ch.nextId)
            && ch.nextId !in ch.selected
  {
  }

  lemma ParkNotes(selected: set<nat>, calls: map<nat, Call>, wakes: set<nat>, f: nat, c: Call)
    requires Noted(selected, calls, wakes, false)
    requires c.parked.Some? && c.parked.value !in selected
    ensures Noted(selected, calls[f := c], wakes, false)
  {
  }

  lemma SignallingStepInv(s: State, f: nat)
    requires Inv(s) && f in s.calls && s.calls[f].pc.Signalling? && CallReady(s, f)
    ensures Inv(StepCall(s, f))
  {
    hide SlotInv, ChanInv, Registered, Noted, Credits, RecvWake, SlotWired, StepSignal, TryPush, TryPushMany, PushOrPark, Repoll;
    var s' := StepCall(s, f);
    SignalStepWake(s.slot, f, s.rx, s.ch.queue != [], s.live == {});
    OtherSignallersKept(s.slot, f);
    RegisteredFrame(s.ch, s.calls, s.issued, s.flushed, f, s'.calls[f]);
    NotedFrame(s.ch.selected, s.calls, s.wakes, s.flushed, f, s'.calls[f]);
    CreditsFrame(s.ch, s.calls, f, s'.calls[f]);
  }

  lemma RegisteredRemove(ch: Chan, calls: map<nat, Call>, issued: map<nat, nat>, flushed: bool, f: nat)
    requires Registered(ch, calls, issued, flushed) && f in calls && forall id :: !HasId(calls[f], id)
    ensures Registered(ch, calls - {f}, issued, flushed)
  {
  }

  lemma RemoveKeepsCredits(ch: Chan, calls: map<nat, Call>, f: nat)
    requires Credits(ch, calls) && f in calls && !Returning(calls[f].pc)
    ensures Credits(ch, calls - {f})
  {
    if !ch.closed && !Credit(ch) {
      var g :| g in calls && Returning(calls[g].pc);
      assert g in calls - {f};
    }
  }

  lemma ReturnStepInv(s: State, f: nat)
    requires Inv(s) && f in s.calls && s.calls[f].pc.Returned? && CallReady(s, f)
    ensures Inv(StepCall(s, f))
  {
    hide SlotInv, ChanInv, RecvWake, SlotWired, Registered, Noted, Credits, EndInv;
    RegisteredRemove(s.ch, s.calls, s.issued, s.flushed, f);
    NotedRemove(s.ch.selected, s.calls, s.wakes, s.flushed, f);
    RemoveKeepsCredits(s.ch, s.calls, f);
    EndSame(s, StepCall(s, f));
  }

  lemma InvParts(s: State, f: nat)
    requires Inv(s) && f in s.calls
    ensures ChanInv(s.ch) && (SingleItem(s.calls[f].pc) ==> s.calls[f].vals != [])
  {
  }

  lemma PushStepInv(s: State, f: nat)
    requires Inv(s) && f in s.calls && CallReady(s, f) && (s.calls[f].pc.Pushing? || s.calls[f].pc.TryPushing?)
    ensures Inv(StepCall(s, f))
  {
    var v := s.calls[f].vals[0];
    hide Inv, ChanInv, Accept, MoveTo, TryPushMany, PushOrPark, Repoll, StepSignal;
    InvParts(s, f);
    PushInv(s.ch, v, []);
    assert s.calls[f].vals[..1] == [v];
    var (ch, ok) := TryPush(s.ch, v);
    if ok {
      AcceptInv(s, f, ch, 1);
    } else if s.calls[f].pc.Pushing? {
      MoveInv(s, f, Parking);
    } else {
      MoveInv(s, f, TryRechecking);
    }
  }

  lemma ParkingStepInv(s: State, f: nat)
    requires Inv(s) && f in s.calls && CallReady(s, f) && s.calls[f].pc.Parking?
    ensures Inv(StepCall(s, f))
  {
    var v := s.calls[f].vals[0];
    hide Inv, ChanInv, Accept, MoveTo, ParkCall;
    InvParts(s, f);
    PushInv(s.ch, v, []);
    assert s.calls[f].vals[..1] == [v];
    var (ch, out) := PushOrPark(s.ch, v);
    if out.Sent? {
      AcceptInv(s, f, ch, 1);
    } else if out.Closed? {
      MoveInv(s, f, Returned);
    } else {
      ParkStepInv(s, f);
    }
  }

  lemma ManyAccepts(ch: Chan, items: seq<Item>)
    requires ChanInv(ch)
    ensures var (ch', n) := TryPushMany(ch, items);
            && n <= |items| && ChanInv(ch')
            && (n > 0 ==> ch' == ch.(queue := ch.queue + items[..n], nonempty := true))
  {
    PushInv(ch, 0, items);
  }

  lemma ManyStepInv(s: State, f: nat)
    requires Inv(s) && f in s.calls && CallReady(s, f) && s.calls[f].pc.ManyPushing?
    ensures Inv(StepCall(s, f))
  {
    hide Inv, ChanInv, Accept, MoveTo, TryPushMany;
    InvParts(s, f);
    ManyAccepts(s.ch, s.calls[f].vals);
    var (ch, n) := TryPushMany(s.ch, s.calls[f].vals);
    if n > 0 {
      AcceptInv(s, f, ch, n);
    } else {
      MoveInv(s, f, Returned);
    }
  }

  lemma CallStepInv(s: State, f: nat)
    requires Inv(s) && f in s.calls && CallReady(s, f) && !s.calls[f].pc.Rest?
    ensures Inv(StepCall(s, f))
  {
    hide Inv, CallReady, PushOrPark, TryPush, TryPushMany, Accept, ParkCall, Repoll;
    match s.calls[f].pc
    case Repolling(_) => RepollStepInv(s, f);
    case Checking(again) => MoveInv(s, f, if s.ch.closed then Returned else Pushing(again));
    case Pushing(_) => PushStepInv(s, f);
    case Parking => ParkingStepInv(s, f);
    case TryChecking => MoveInv(s, f, if s.ch.closed then Returned else TryPushing);
    case TryPushing => PushStepInv(s, f);
    case TryRechecking => MoveInv(s, f, Returned);
    case ManyChecking => MoveInv(s, f, if s.ch.closed then Returned else ManyPushing);
    case ManyPushing => ManyStepInv(s, f);
    case Signalling => SignallingStepInv(s, f);
    case Returned => ReturnStepInv(s, f);
  }

  // ---------------- starting, polling and dropping calls ----------------

  lemma PollSendInv(s: State, f: nat)
    requires Inv(s) && f in s.calls && s.calls[f].pc.Rest?
    ensures Inv(PollCall(s, f))
  {
    hide SlotInv, ChanInv, RecvWake, SlotWired, Registered, Noted, Credits, EndInv;
    var c := PollCall(s, f).calls[f];
    RegisteredFrame(s.ch, s.calls, s.issued, s.flushed, f, c);
    NotedFrame(s.ch.selected, s.calls, s.wakes, s.flushed, f, c);
    CreditsFrame(s.ch, s.calls, f, c);
    EndSame(s, PollCall(s, f));
  }

  lemma NewCallInv(s: State, c: Call)
    requires Inv(s) && c.owner in s.live && c.parked.None?
    requires c.pc.Rest? || c.pc.TryChecking? || c.pc.ManyChecking?
    requires SingleItem(c.pc) ==> c.vals != []
    ensures Inv(NewCall(s, c))
  {
    hide SlotInv, ChanInv, RecvWake, SlotWired, Registered, Noted, Credits, EndInv;
    RegisteredFrame(s.ch, s.calls, s.issued, s.flushed, s.nextCall, c);
    NotedFrame(s.ch.selected, s.calls, s.wakes, s.flushed, s.nextCall, c);
    CreditsFrame(s.ch, s.calls, s.nextCall, c);
    EndSame(s, NewCall(s, c));
  }

  lemma DropSendInv(s: State, f: nat)
    requires Inv(s) && f in s.calls && s.calls[f].pc.Rest?
    ensures Inv(DropCall(s, f))
  {
    hide SlotInv, ChanInv, RecvWake, SlotWired, Registered, Noted, EndInv, Cancel, Credit, SomeReturning;
    var s' := DropCall(s, f);
    var c := s.calls[f];
    NotedRemove(s.ch.selected, s.calls, s.wakes, s.flushed, f);
    RemoveKeepsCredits(s.ch, s.calls, f);
    if c.parked.Some? {
      var id := c.parked.value;
      CancelInv(s.ch, id);
      CancelFrame(s.ch, id);
      CancelLists(s.ch, id);
      RegisteredLess(s.ch, s'.ch, s.calls, s.issued, s.flushed, f, id, c.(parked := None));
      NotedLess(s.ch.selected, s'.ch.selected, s'.calls, s.wakes, s'.wakes, s.flushed);
    } else {
      RegisteredRemove(s.ch, s.calls, s.issued, s.flushed, f);
    }
    EndSame(s, s');
  }

  lemma CancelLists(ch: Chan, id: nat)
    requires ChanInv(ch)
    ensures forall x :: Listed(Cancel(ch, id).0, x) <==> Listed(ch, x) && x != id
  {
    CancelInv(ch, id);
    hide Cancel, ChanInv;
  }

  lemma WakeOneLists(ch: Chan)
    requires ChanInv(ch)
    ensures var ch' := WakeOne(ch).0;
            && (forall x :: Listed(ch', x) <==> Listed(ch, x))
            && ch'.nextId == ch.nextId && ch'.queue == ch.queue && ch'.closed == ch.closed && ch'.cap == ch.cap
            && (ch.q == [] ==> ch'.q == [] && ch'.selected == ch.selected)
  {
    WakeOneInv(ch);
  }

  lemma CancelFrame(ch: Chan, id: nat)
    ensures var ch' := Cancel(ch, id).0;
            ch'.closed == ch.closed && ch'.cap == ch.cap && ch'.nextId == ch.nextId && ch'.queue == ch.queue
    ensures ch.q == [] && ch.selected == {} ==> Cancel(ch, id).0.q == [] && Cancel(ch, id).0.selected == {}
  {
  }

  lemma FireInv(s: State, id: nat)
    requires Inv(s) && id in s.wakes
    ensures Inv(Arrive(s, id))
  {
    hide SlotInv, ChanInv, RecvWake, SlotWired, Registered, Credits, EndInv;
    var s' := Arrive(s, id);
    if id in s.issued && s.issued[id] in s.calls && s.calls[s.issued[id]].parked == Some(id) {
      var f := s.issued[id];
      RegisteredFrame(s.ch, s.calls, s.issued, s.flushed, f, s'.calls[f]);
      CreditsFrame(s.ch, s.calls, f, s'.calls[f]);
    }
    FireNotes(s, id);
    EndSame(s, s');
  }

  /** A registration whose waker has been called is notified, so dropping the pending wake loses nothing. */
  lemma FireNotes(s: State, id: nat)
    requires Noted(s.ch.selected, s.calls, s.wakes, s.flushed)
    requires Registered(s.ch, s.calls, s.issued, s.flushed)
    ensures Noted(s.ch.selected, Arrive(s, id).calls, Arrive(s, id).wakes, s.flushed)
  {
    forall f | f in s.calls && s.calls[f].parked == Some(id)
      ensures id in s.issued && s.issued[id] == f
    {
      assert HasId(s.calls[f], id);
    }
  }

  lemma HandleInv(s: State, sd: nat)
    requires Inv(s) && sd in s.live
    ensures Inv(s.(live := s.live + {s.nextCall}, nextCall := s.nextCall + 1))
    ensures Idle(s, sd) ==> Inv(DropHandle(s, sd))
  {
    hide SlotInv, ChanInv, Registered, Noted, Credits, SlotWired;
    var s1 := s.(live := s.live + {s.nextCall}, nextCall := s.nextCall + 1);
    assert s1.live != {};
    if Idle(s, sd) && s.live - {sd} == {} {
      BeginSignalWake(s.slot, s.nextCall, s.rx, s.ch.queue != [], true);
    }
  }

  lemma SignalStepInv(s: State, id: nat)
    requires Inv(s) && id in s.slot.signals && id !in s.calls
    ensures Inv(s.(slot := StepSignal(s.slot, id)))
  {
    hide SlotInv, ChanInv, RecvWake, SlotWired, Registered, Noted, Credits, EndInv;
    SignalStepWake(s.slot, id, s.rx, s.ch.queue != [], s.live == {});
    OtherSignallersKept(s.slot, id);
    EndSame(s, s.(slot := StepSignal(s.slot, id)));
  }

  // ---------------- the receiver ----------------

  lemma RxCallInv(s: State, rx: RxPc)
    requires Inv(s) && (s.rx.RIdle? || s.rx.RParked?)
    requires rx == RDisarm || (rx.RNext? && (rx.ctx.Once? || rx.ctx.Many? || rx.ctx.First?)) || (s.rx.RIdle? && rx.RClosing?)
    ensures Inv(s.(rx := rx))
  {
    hide SlotInv, ChanInv, Registered, Noted, Credits;
  }

  /** Rearranging the lists and waking some of their ids keeps what the senders rely on. */
  lemma ListsInv(s: State, ch: Chan, wakes: set<nat>)
    requires Registered(s.ch, s.calls, s.issued, s.flushed) && Noted(s.ch.selected, s.calls, s.wakes, s.flushed)
    requires ch.nextId == s.ch.nextId && forall id :: Listed(ch, id) <==> Listed(s.ch, id)
    requires s.wakes <= wakes && forall id :: id in ch.selected ==> id in s.ch.selected || id in wakes
    ensures Registered(ch, s.calls, s.issued, s.flushed) && Noted(ch.selected, s.calls, wakes, s.flushed)
  {
    RegisteredSame(s.ch, ch, s.calls, s.issued, s.flushed);
    NotedLess(s.ch.selected, ch.selected, s.calls, s.wakes, wakes, s.flushed);
  }

  lemma WakeStepInv(s: State)
    requires Inv(s) && RxReady(s) && (s.rx.RWake? || s.rx.RParkWake?)
    ensures Inv(StepRx(s))
  {
    hide SlotInv, ChanInv, Registered, Noted, WakeOne, Credit, SomeReturning, CallsInv, Steal;
    var s' := StepRx(s);
    WakeOneInv(s.ch);
    WakeOneLists(s.ch);
    ListsInv(s, s'.ch, s'.wakes);
    CallsFrame(s, s');
  }

  lemma EmptyStealInv(s: State)
    requires Inv(s) && RxReady(s) && s.rx.RSteal? && s.ch.queue == []
    ensures Inv(StepRx(s))
  {
    hide SlotInv, ChanInv, Registered, Noted, WakeOne, Credits, CallsInv;
    CallsFrame(s, StepRx(s));
  }

  /** What a steal does to everything but the channel and the items. */
  lemma FullStealRest(s: State)
    requires Inv(s) && RxReady(s) && s.rx.RSteal? && s.ch.queue != []
    ensures var s' := StepRx(s);
            CallsInv(s') && FlushInv(s') && SlotWired(s'.slot, s'.rx) && RecvWake(s'.slot, s'.rx, s'.ch.queue != [], s'.live == {})
            && EndInv(s')
  {
    hide SlotInv, ChanInv, Registered, Noted, Steal, WakeOne, Credits, CallsInv, Items;
    StealInv(s.ch);
    StealLists(s.ch);
    CallsFrame(s, StepRx(s));
  }

  lemma FullStealItems(s: State)
    requires Inv(s) && RxReady(s) && s.rx.RSteal? && s.ch.queue != []
    ensures Items(StepRx(s))
  {
    hide SlotInv, ChanInv, Registered, Noted, Steal, WakeOne, Credits, CallsInv, FlushInv, SlotWired, RecvWake, EndInv;
    var (ch, items, woken) := Steal(s.ch);
    StealInv(s.ch);
    StealLists(s.ch);
    assert items == [items[0]] + items[1..];
  }

  lemma FullStealInv(s: State)
    requires Inv(s) && RxReady(s) && s.rx.RSteal? && s.ch.queue != []
    ensures Inv(StepRx(s))
  {
    FullStealRest(s);
    FullStealItems(s);
    hide SlotInv, ChanInv, Items, Registered, Noted, Steal, WakeOne, Credit, SomeReturning, CallsInv, FlushInv, SlotWired, RecvWake, EndInv;
    var s' := StepRx(s);
    StealInv(s.ch);
    StealLists(s.ch);
    ListsInv(s, s'.ch, s'.wakes);
  }

  lemma StealStepInv(s: State)
    requires Inv(s) && RxReady(s) && s.rx.RSteal?
    ensures Inv(StepRx(s))
  {
    hide Inv, RxReady, StepRx;
    if s.ch.queue == [] {
      EmptyStealInv(s);
    } else {
      FullStealInv(s);
    }
  }

  lemma StealLists(ch: Chan)
    requires ChanInv(ch)
    ensures var (ch', items, _) := Steal(ch);
            && items == ch.queue && (items == [] ==> ch' == ch) && |items| <= ch.cap
            && (forall x :: Listed(ch', x) <==> Listed(ch, x))
            && ch'.nextId == ch.nextId && ch'.closed == ch.closed && ch'.cap == ch.cap
            && (ch.q == [] ==> ch'.q == [] && ch'.selected == ch.selected)
  {
    if ch.queue != [] {
      WakeOneLists(ch.(queue := [], nonempty := false));
    }
  }

  lemma DeliverStepInv(s: State)
    requires Inv(s) && RxReady(s) && s.rx.RNext?
    ensures Inv(StepRx(s))
  {
    hide SlotInv, ChanInv, Registered, Noted, Credits, CallsInv;
    assert s.staging != [] ==> s.staging == [s.staging[0]] + s.staging[1..];
    assert CallsInv(s) ==> CallsInv(StepRx(s)) by { CallsFrame(s, StepRx(s)); }
  }

  lemma LengthStepInv(s: State)
    requires Inv(s) && RxReady(s) && (s.rx.RLen? || s.rx.RParkLen?)
    ensures Inv(StepRx(s))
  {
    hide SlotInv, ChanInv, Registered, Noted, Credits, CallsInv;
    assert CallsInv(s) ==> CallsInv(StepRx(s)) by { CallsFrame(s, StepRx(s)); }
  }

  /** The calls depend on nothing of the receiver but the signals it has in flight. */
  lemma CallsFrame(s: State, s': State)
    requires s'.live == s.live && s'.calls == s.calls && s'.nextCall == s.nextCall && s'.slot.signals == s.slot.signals
    ensures CallsInv(s) ==> CallsInv(s')
  {
  }

  /** The receiver moves to `rx` with its slot in state `slot`; nothing else changes. */
  lemma SlotFrame(s: State, slot: Slot, rx: RxPc)
    requires Inv(s) && slot.signals == s.slot.signals && SlotWired(slot, rx) && !PastSteal(rx)
    requires !s.rx.RFlushing? && !s.rx.RGone? && !rx.RFlushing? && !rx.RGone? && !rx.RSenders? && !rx.RSteal?
    requires FinalLook(rx) ==> s.live == {}
    ensures Inv(s.(slot := slot, rx := rx))
  {
    hide SlotInv, ChanInv, Registered, Noted, Credits, CallsInv, SlotWired;
    CallsFrame(s, s.(slot := slot, rx := rx));
  }

  lemma ArmStepInv(s: State)
    requires Inv(s) && RxReady(s) && s.rx.RArm?
    ensures Inv(StepRx(s))
  {
    var slot := StepArm(s.slot);
    StepArmInv(s.slot);
    assert slot.signals == s.slot.signals && (AtRest(slot) ==> slot.wpc.On?);
    hide SlotInv, StepArm, ChanInv, Items, CallsInv, Registered, Noted, Credits, EndInv;
    SlotFrame(s, slot, if AtRest(slot) then RNext(Recheck) else RArm);
  }

  lemma DisarmStepInv(s: State)
    requires Inv(s) && RxReady(s) && (s.rx.RDisarm? || s.rx.RDisarmFinal?)
    ensures Inv(StepRx(s))
  {
    DisarmInv(s.slot);
    hide SlotInv, ChanInv, Items, CallsInv, Registered, Noted, Credits;
    SlotFrame(s, Disarm(s.slot), if s.rx.RDisarm? then RIdle else RNext(RecheckFinal));
  }

  lemma SendersStepInv(s: State)
    requires Inv(s) && RxReady(s) && s.rx.RSenders?
    ensures Inv(StepRx(s))
  {
    hide SlotInv, ChanInv, Registered, Noted, Credits;
    if s.live != {} && s.rx.ctx.First? {
      BeginArmInv(s.slot, s.rx.ctx.w);
    }
  }

  lemma CloseStepInv(s: State)
    requires Inv(s) && RxReady(s) && s.rx.RClosing?
    ensures Inv(StepRx(s))
  {
    hide SlotInv, Noted, Credit;
    RegisteredSame(s.ch, StepRx(s).ch, s.calls, s.issued, s.flushed);
  }

  lemma FlushStepInv(s: State)
    requires Inv(s) && RxReady(s) && s.rx.RFlushing?
    ensures Inv(StepRx(s))
  {
    hide SlotInv;
    var s' := StepRx(s);
    forall f | f in s.calls && s.calls[f].parked.Some?
      ensures s.calls[f].notified || s.calls[f].parked.value in s'.wakes
    {
      assert HasId(s.calls[f], s.calls[f].parked.value);
      assert Listed(s.ch, s.calls[f].parked.value);
    }
  }

  lemma RxStepInv(s: State)
    requires Inv(s) && RxReady(s) && !s.rx.RIdle? && !s.rx.RParked? && !s.rx.RGone?
    ensures Inv(StepRx(s))
  {
    hide Inv, StepRx, RxReady;
    match s.rx
    case RNext(_) => DeliverStepInv(s);
    case RLen(_) => LengthStepInv(s);
    case RParkLen => LengthStepInv(s);
    case RWake(_) => WakeStepInv(s);
    case RParkWake => WakeStepInv(s);
    case RSteal(_) => StealStepInv(s);
    case RClosing => CloseStepInv(s);
    case RFlushing => FlushStepInv(s);
    case RSenders(_) => SendersStepInv(s);
    case RArm => ArmStepInv(s);
    case RDisarm => DisarmStepInv(s);
    case RDisarmFinal => DisarmStepInv(s);
  }

  // ---------------- every step ----------------

  lemma StepInv(s: State, a: Action)
    requires Inv(s) && Ready(s) && Enabled(s, a)
    ensures Inv(Apply(s, a))
  {
    hide Inv, StepCall, StepRx, DropCall, Arrive, DropHandle, NewCall, PollCall;
    match a
    case Clone(sd) => HandleInv(s, sd);
    case DropSender(sd) => HandleInv(s, sd);
    case NewSend(sd, v) => NewCallInv(s, Call(sd, [v], None, Rest, false));
    case NewTry(sd, v) => NewCallInv(s, Call(sd, [v], None, TryChecking, false));
    case NewMany(sd, items) => NewCallInv(s, Call(sd, items, None, ManyChecking, false));
    case PollSend(f) => PollSendInv(s, f);
    case DropSend(f) => DropSendInv(s, f);
    case CallStep(f) => CallStepInv(s, f);
    case SignalStep(id) => SignalStepInv(s, id);
    case FireWake(id) => FireInv(s, id);
    case TryRecv => RxCallInv(s, RNext(Once));
    case RecvMany(max) => RxCallInv(s, RNext(Many(max)));
    case PollRecv(w) => RxCallInv(s, RNext(First(w)));
    case CancelRecv => RxCallInv(s, RDisarm);
    case DropReceiver => RxCallInv(s, RClosing);
    case RxStep => RxStepInv(s);
  }

  lemma {:induction false} RunInv(run: seq<State>, i: nat)
    requires IsRun(run) && i < |run|
    ensures Inv(run[i])
  {
    hide Inv, Apply, Init, Ready;
    if i == 0 {
      InitInv(run[0]);
    } else {
      RunInv(run, i - 1);
      assert Next(run[i - 1], run[i - 1 + 1]);
      var a :| Enabled(run[i - 1], a) && run[i] == Apply(run[i - 1], a);
      StepInv(run[i - 1], a);
    }
  }
}

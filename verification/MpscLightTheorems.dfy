/** What every interleaving of the multi-producer channel guarantees. */
module MpscLightTheorems {
  import opened Wrappers
  import opened Notify
  import opened MpscChannel
  import opened MpscLight
  import opened MpscLightProof

  // ---------------- one bounded queue, first in first out across all senders ----------------

  /** Accepted items, in the order of the lock, are the delivered ones, then the staged ones, then the queued ones. */
  lemma GlobalFifo(run: seq<State>, i: nat)
    requires IsRun(run) && i < |run|
    ensures var s := run[i];
            && s.accepted == s.delivered + s.staging + s.ch.queue
            && |s.ch.queue| <= s.ch.cap && |s.staging| <= s.ch.cap
            && (s.ch.nonempty <==> s.ch.queue != [])
            && s.ch.waitersLen == |s.ch.q|
  {
    RunInv(run, i);
    hide CallsInv, Registered, Noted, Credits, SlotWired, RecvWake, EndInv;
  }

  // ---------------- wake credits ----------------

  /**
   While the channel is open nobody waits in vain: there is something to steal,
   a woken sender that has not been polled, or one on its way back to the queue.
   */
  lemma WakeCredits(run: seq<State>, i: nat)
    requires IsRun(run) && i < |run|
    requires !run[i].ch.closed && run[i].ch.q != []
    ensures var s := run[i];
            || s.ch.queue != []
            || (exists id :: id in s.ch.selected && id in s.issued && s.issued[id] in s.calls
                             && HasId(s.calls[s.issued[id]], id))
            || (exists f :: f in s.calls && Returning(s.calls[f].pc))
  {
    RunInv(run, i);
    hide ChanInv, Items, CallsInv, Noted, SlotWired, RecvWake, EndInv, FlushInv;
    var s := run[i];
    if s.ch.queue == [] && s.ch.selected != {} {
      var id :| id in s.ch.selected;
      assert Listed(s.ch, id);
    }
  }

  /** An id is on one list at most, was issued before, and belongs to exactly one live call. */
  lemma IdsBelongToOneCall(run: seq<State>, i: nat, id: nat, f: nat, g: nat)
    requires IsRun(run) && i < |run|
    ensures var s := run[i];
            && !(id in s.ch.q && id in s.ch.selected)
            && (Listed(s.ch, id) ==> id < s.ch.nextId && exists h :: h in s.calls && HasId(s.calls[h], id))
            && (f in s.calls && g in s.calls && HasId(s.calls[f], id) && HasId(s.calls[g], id) ==> f == g)
  {
    RunInv(run, i);
    hide Items, CallsInv, Noted, SlotWired, RecvWake, EndInv, FlushInv, Credits;
    var s := run[i];
    if Listed(s.ch, id) {
      assert s.issued[id] in s.calls && HasId(s.calls[s.issued[id]], id);
    }
  }

  /** A sender popped from the wait-list has been notified, or its wake is on the way. */
  lemma SelectedIsWoken(run: seq<State>, i: nat, f: nat)
    requires IsRun(run) && i < |run|
    requires f in run[i].calls && run[i].calls[f].parked.Some? && run[i].calls[f].parked.value in run[i].ch.selected
    ensures run[i].calls[f].notified || run[i].calls[f].parked.value in run[i].wakes
  {
    RunInv(run, i);
  }

  // ---------------- closing ----------------

  lemma CallKeepsFlushed(s: State, f: nat)
    requires f in s.calls && CallReady(s, f)
    ensures StepCall(s, f).flushed == s.flushed
  {
    hide PushOrPark, TryPush, TryPushMany, Repoll, StepSignal;
  }

  lemma StepKeepsFlushed(s: State, a: Action)
    requires Ready(s) && Enabled(s, a) && s.flushed
    ensures Apply(s, a).flushed
  {
    if a.CallStep? {
      CallKeepsFlushed(s, a.f);
    }
    hide StepCall, Cancel, WakeOne, Steal, StepSignal, StepArm;
  }

  lemma {:induction false} FlushedStays(run: seq<State>, i: nat, j: nat)
    requires IsRun(run) && i <= j < |run| && run[i].flushed
    ensures run[j].flushed
    decreases j
  {
    hide Apply, Ready, Init;
    if i < j {
      FlushedStays(run, i, j - 1);
      assert Next(run[j - 1], run[j - 1 + 1]);
      var a :| Enabled(run[j - 1], a) && run[j] == Apply(run[j - 1], a);
      StepKeepsFlushed(run[j - 1], a);
    }
  }

  /**
   Once the receiver has woken all waiters, nobody is ever on the wait-list
   again, and every call still registered has been woken.
   */
  lemma NobodyParksAfterFlush(run: seq<State>, i: nat, j: nat, f: nat)
    requires IsRun(run) && i <= j < |run| && run[i].flushed
    ensures run[j].ch.q == [] && run[j].ch.selected == {}
    ensures f in run[j].calls && run[j].calls[f].parked.Some? ==>
              run[j].calls[f].notified || run[j].calls[f].parked.value in run[j].wakes
  {
    FlushedStays(run, i, j);
    RunInv(run, j);
  }

  /** The receiver reports the end only when no sender is left and everything accepted has been delivered. */
  lemma EndMeansDelivered(run: seq<State>, i: nat)
    requires IsRun(run) && i < |run| && run[i].ended
    ensures run[i].live == {} && run[i].calls == map[] && run[i].delivered == run[i].accepted
  {
    RunInv(run, i);
    hide ChanInv, Registered, Noted, SlotWired, RecvWake, FlushInv, Credits;
    var s := run[i];
    assert s.calls.Keys == {};
  }

  // ---------------- the receiver's wakeup ----------------

  lemma RecvWakeupNotLost(run: seq<State>, i: nat)
    requires IsRun(run) && i < |run|
    requires run[i].rx.RParked? && !run[i].slot.notified
    requires run[i].ch.queue != [] || run[i].live == {}
    ensures exists id :: id in run[i].slot.signals
  {
    RunInv(run, i);
    hide ChanInv, Items, CallsInv, Registered, Noted, FlushInv, Credits, EndInv;
    var s := run[i].slot;
    if s.armed {
      assert SignalDue(s);
    } else {
      assert SomeClaim(s);
    }
  }

  /** Receiver and senders never sleep together: some waiter has been woken or one is on its way to push. */
  lemma NeverAllAsleep(run: seq<State>, i: nat)
    requires IsRun(run) && i < |run|
    requires run[i].rx.RParked? && !run[i].slot.notified && run[i].slot.signals == map[]
    requires run[i].ch.q != []
    ensures var s := run[i];
            || (exists f :: f in s.calls && s.calls[f].parked.Some?
                            && (s.calls[f].notified || s.calls[f].parked.value in s.wakes))
            || (exists f :: f in s.calls && (Returning(s.calls[f].pc) || s.calls[f].pc.Repolling?))
  {
    RunInv(run, i);
    if run[i].ch.queue != [] {
      RecvWakeupNotLost(run, i);
    }
    hide ChanInv, Items, CallsInv, SlotWired, RecvWake, EndInv;
    WakeCredits(run, i);
    var s := run[i];
    if id :| id in s.ch.selected && id in s.issued && s.issued[id] in s.calls && HasId(s.calls[s.issued[id]], id) {
      var f := s.issued[id];
      assert f in s.calls;
      if s.calls[f].parked == Some(id) {
        SelectedIsWoken(run, i, f);
      }
    }
  }

  /** Every enabled action has its step: the well-formedness that a step asks for holds in every reachable state. */
  lemma EveryActionHasItsStep(run: seq<State>, i: nat, a: Action)
    requires IsRun(run) && i < |run| && Enabled(run[i], a)
    ensures Ready(run[i]) && Next(run[i], Apply(run[i], a))
  {
    RunInv(run, i);
    InvReady(run[i]);
    hide Inv, Apply;
  }
}

/** The single-threaded mutex: its operations, and what every run of futures and guards keeps. */
module LocalMutex {
  import opened Wrappers
  import opened Waiters

  datatype Mutex = Mutex(locked: bool, q: seq<Entry>, nextId: nat)

  function TryLock(m: Mutex): (Mutex, bool) {
    (m.(locked := true), !m.locked)
  }

  /** Pop and wake the first waiter, but only while the lock is free. */
  function WakeNext(m: Mutex): (Mutex, Option<Entry>) {
    if m.locked || m.q == [] then (m, None) else (m.(q := m.q[1..]), Some(m.q[0]))
  }

  function Unlock(m: Mutex): (Mutex, Option<Entry>) {
    WakeNext(m.(locked := false))
  }

  /** One poll of a lock future: the mutex, the slot and whether the lock was taken. */
  function PollLock(m: Mutex, slot: Option<Entry>, waker: nat): (Mutex, Option<Entry>, bool) {
    var (m1, ok) := TryLock(m);
    if ok then (m1.(q := Deregister(m1.q, slot)), None, true)
    else
      var (q, nextId, slot2) := Register(m1.q, m1.nextId, slot, 1, waker);
      var (m2, again) := TryLock(m1.(q := q, nextId := nextId));
      if again then (m2.(q := Deregister(m2.q, slot2)), None, true) else (m2, slot2, false)
  }

  /** Dropping a lock future: a registered one leaves the queue and passes the turn on. */
  function DropLock(m: Mutex, slot: Option<Entry>): (Mutex, Option<Entry>) {
    if slot.None? then (m, None) else WakeNext(m.(q := Deregister(m.q, slot)))
  }

  // ---------------- runs ----------------

  /** The mutex, its live futures and the number of live guards. */
  datatype Sys = Sys(m: Mutex, futs: map<nat, Fut>, guards: nat)

  datatype Action =
    | NewLock(f: nat)
    | Poll(f: nat, waker: nat)
    | DropFuture(f: nat)
    | TryLockNow
    | DropGuard

  predicate Enabled(s: Sys, a: Action) {
    match a
    case NewLock(f) => f !in s.futs
    case Poll(f, _) => f in s.futs
    case DropFuture(f) => f in s.futs
    case TryLockNow => true
    case DropGuard => s.guards > 0
  }

  function Apply(s: Sys, a: Action): Sys
    requires Enabled(s, a)
  {
    match a
    case NewLock(f) => s.(futs := s.futs[f := Fut(None, false)])
    case Poll(f, waker) =>
      var (m, slot, ready) := PollLock(s.m, s.futs[f].slot, waker);
      Sys(m, s.futs[f := Fut(slot, false)], if ready then s.guards + 1 else s.guards)
    case DropFuture(f) =>
      var (m, woken) := DropLock(s.m, s.futs[f].slot);
      s.(m := m, futs := WakeOwner(s.futs - {f}, woken))
    case TryLockNow =>
      var (m, ok) := TryLock(s.m);
      s.(m := m, guards := if ok then s.guards + 1 else s.guards)
    case DropGuard =>
      var (m, woken) := Unlock(s.m);
      Sys(m, WakeOwner(s.futs, woken), s.guards - 1)
  }

  ghost predicate Init(s: Sys) {
    s == Sys(Mutex(false, [], 0), map[], 0)
  }

  ghost predicate Next(s: Sys, s': Sys) {
    exists a :: Enabled(s, a) && s' == Apply(s, a)
  }

  ghost predicate IsRun(run: seq<Sys>) {
    && |run| > 0
    && Init(run[0])
    && forall i :: 0 <= i < |run| - 1 ==> Next(run[i], run[i + 1])
  }

  // ---------------- the invariant ----------------

  ghost predicate Inv(s: Sys) {
    && s.guards == (if s.m.locked then 1 else 0)
    && Bound(s.m.q, s.m.nextId, s.futs)
    && Torch(s.m.q, s.futs)
    && (!s.m.locked && s.m.q != [] ==> SomeWoken(s.futs))
  }

  lemma WakeNextInv(m: Mutex, futs: map<nat, Fut>, guards: nat)
    requires Bound(m.q, m.nextId, futs) && Torch(m.q, futs) && guards == (if m.locked then 1 else 0)
    ensures var (m', woken) := WakeNext(m); Inv(Sys(m', WakeOwner(futs, woken), guards))
  {
    hide Bound, Torch, SomeWoken, WakeOwner;
    if !m.locked && m.q != [] {
      PopBound(m.q, m.nextId, futs);
      PopTorch(m.q, m.nextId, futs);
    } else {
      assert WakeOwner(futs, None) == futs by { WakeNobody(futs); }
    }
  }

  lemma StepInv(s: Sys, a: Action)
    requires Inv(s) && Enabled(s, a)
    ensures Inv(Apply(s, a))
  {
    hide Bound, Torch, WakeOwner, Register, Deregister;
    var q, nextId := s.m.q, s.m.nextId;
    match a
    case NewLock(f) =>
      NewFuture(q, nextId, s.futs, f);
      NewFutureWoken(s.futs, f);
    case Poll(f, waker) =>
      if s.m.locked {
        RegisterBound(q, nextId, s.futs, f, 1, waker, false);
        RegisterTorch(q, nextId, s.futs, f, 1, waker);
      } else {
        DeregisterBound(q, nextId, s.futs, f);
        DeregisterTorch(q, nextId, s.futs, f);
      }
    case DropFuture(f) =>
      DeregisterBound(q, nextId, s.futs, f);
      DeregisterTorch(q, nextId, s.futs, f);
      if s.futs[f].slot.Some? {
        WakeNextInv(s.m.(q := Deregister(q, s.futs[f].slot)), s.futs - {f}, s.guards);
      } else {
        DropUnregistered(q, s.futs, f);
        WakeNobody(s.futs - {f});
        assert Deregister(q, None) == q by { NothingToRemove(q); }
      }
    case TryLockNow =>
    case DropGuard =>
      WakeNextInv(s.m.(locked := false), s.futs, 0);
  }

  lemma {:induction false} RunInv(run: seq<Sys>, i: nat)
    requires IsRun(run) && i < |run|
    ensures Inv(run[i])
  {
    if i > 0 {
      RunInv(run, i - 1);
      hide Inv, Apply;
      assert Next(run[i - 1], run[i - 1 + 1]);
      var a :| Enabled(run[i - 1], a) && run[i] == Apply(run[i - 1], a);
      StepInv(run[i - 1], a);
    }
  }

  // ---------------- what every run guarantees ----------------

  /** There is never more than one guard, and the flag says whether there is one. */
  lemma AtMostOneGuard(run: seq<Sys>, i: nat)
    requires IsRun(run) && i < |run|
    ensures run[i].guards <= 1 && (run[i].m.locked <==> run[i].guards == 1)
  {
    RunInv(run, i);
  }

  /** A free lock with a non-empty queue has a future that was woken and has not been polled or dropped since. */
  lemma NobodyStranded(run: seq<Sys>, i: nat)
    requires IsRun(run) && i < |run|
    requires !run[i].m.locked && run[i].m.q != []
    ensures exists f :: f in run[i].futs && run[i].futs[f].slot.Some? && run[i].futs[f].notified
  {
    RunInv(run, i);
    var f :| f in run[i].futs && run[i].futs[f].notified;
    assert run[i].futs[f].slot.Some?;
  }

  /** A registered future is queued exactly once, or woken and not yet polled, and never both. */
  lemma QueuedOrWoken(run: seq<Sys>, i: nat, f: nat)
    requires IsRun(run) && i < |run| && f in run[i].futs && run[i].futs[f].slot.Some?
    ensures var s := run[i]; var e := s.futs[f].slot.value;
            if s.futs[f].notified then e !in s.m.q
            else exists j :: 0 <= j < |s.m.q| && s.m.q[j] == e && forall l :: 0 <= l < |s.m.q| && s.m.q[l].id == e.id ==> l == j
  {
    RunInv(run, i);
    var s := run[i];
    var e := s.futs[f].slot.value;
    if s.futs[f].notified {
      if e in s.m.q {
        QueuedIn(s.m.q, e);
      }
    } else {
      var j :| 0 <= j < |s.m.q| && s.m.q[j].id == e.id;
      assert HasOwner(s.futs, s.m.q[j]);
      var g :| g in s.futs && s.futs[g].slot == Some(s.m.q[j]);
      assert SameId(s.futs[f], s.futs[g]);
    }
  }

  /** Every queue entry belongs to exactly one live future. */
  lemma EntriesAreLive(run: seq<Sys>, i: nat, j: nat)
    requires IsRun(run) && i < |run| && j < |run[i].m.q|
    ensures OneOwner(run[i].futs, run[i].m.q[j])
  {
    RunInv(run, i);
    SoleOwner(run[i].m.q, run[i].m.nextId, run[i].futs, j);
  }

  /** Releasing the lock wakes the longest queued future and nobody else. */
  lemma TurnGoesToFirst(run: seq<Sys>, i: nat, f: nat)
    requires IsRun(run) && i < |run| && run[i].guards > 0 && f in run[i].futs
    ensures var s := run[i]; var s' := Apply(s, DropGuard);
            && f in s'.futs && s'.futs[f].slot == s.futs[f].slot
            && (s'.futs[f].notified <==> s.futs[f].notified || (s.m.q != [] && s.futs[f].slot == Some(s.m.q[0])))
            && s'.m.q == (if s.m.q == [] then [] else s.m.q[1..])
  {
    RunInv(run, i);
    var s := run[i];
    if s.m.q != [] {
      SoleOwner(s.m.q, s.m.nextId, s.futs, 0);
    }
    hide Bound, Torch;
  }

  /** A poll takes the lock exactly when it is free, and then leaves no entry behind. */
  lemma PollTakesFreeLock(run: seq<Sys>, i: nat, f: nat, waker: nat)
    requires IsRun(run) && i < |run| && f in run[i].futs
    ensures var s := run[i]; var s' := Apply(s, Poll(f, waker));
            && (s'.guards > s.guards <==> !s.m.locked)
            && s'.m.locked
            && (s'.futs[f].slot.Some? <==> s.m.locked)
            && (s'.futs[f].slot.Some? ==> Queued(s'.m.q, s'.futs[f].slot.value.id))
            && (s.futs[f].slot.Some? && !s.m.locked ==> !Queued(s'.m.q, s.futs[f].slot.value.id))
  {
    var s := run[i];
    var slot := s.futs[f].slot;
    var slot' := Register(s.m.q, s.m.nextId, slot, 1, waker).2;
    RegisterQueued(s.m.q, s.m.nextId, slot, 1, waker, if slot'.Some? then slot'.value.id else 0);
    if slot.Some? {
      OthersQueued(s.m.q, slot.value.id, slot.value.id);
    }
    hide Register, Others, Queued;
  }
}

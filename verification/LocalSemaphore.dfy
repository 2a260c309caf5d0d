/**
 The single-threaded counting semaphore: FIFO-fair `acquire`, barging
 `try_acquire`, and a front waiter that is woken without being popped.
 */
module LocalSemaphore {
  import opened Wrappers
  import opened WordArithmetic
  import opened Waiters

  datatype Sem = Sem(permits: nat, q: seq<Entry>, nextId: nat)

  function TryAcquire(m: Sem, n: nat): (Sem, bool) {
    if m.permits >= n then (m.(permits := m.permits - n), true) else (m, false)
  }

  /** Enough permits, and nobody queued ahead of token `id`. */
  predicate CanAcquireFair(m: Sem, n: nat, id: Option<nat>) {
    m.permits >= n && (m.q == [] || id == Some(m.q[0].id))
  }

  /** The front waiter, if its request fits; it is woken but stays queued. */
  function WakeNext(m: Sem): Option<Entry> {
    if m.q != [] && m.q[0].need <= m.permits then Some(m.q[0]) else None
  }

  /** Returned or added permits: the semaphore, who is woken, and whether the count would overflow (a panic). */
  function AddPermits(m: Sem, n: nat): (Sem, Option<Entry>, bool) {
    if m.permits + n >= WORD then (m, None, true)
    else
      var m1 := m.(permits := m.permits + n);
      (m1, if m1.q == [] then None else WakeNext(m1), false)
  }

  function IdOf(slot: Option<Entry>): Option<nat> {
    if slot.Some? then Some(slot.value.id) else None
  }

  function Grant(m: Sem, slot: Option<Entry>, n: nat): Sem
    requires m.permits >= n
  {
    m.(permits := m.permits - n, q := Deregister(m.q, slot))
  }

  /** One poll: the semaphore, the slot, whether the permits were granted, and who is woken by the cascade. */
  function PollAcquire(m: Sem, slot: Option<Entry>, n: nat, waker: nat): (Sem, Option<Entry>, bool, Option<Entry>) {
    if CanAcquireFair(m, n, IdOf(slot)) then
      var m1 := Grant(m, slot, n);
      (m1, None, true, WakeNext(m1))
    else
      var (q, nextId, slot2) := Register(m.q, m.nextId, slot, n, waker);
      var m2 := m.(q := q, nextId := nextId);
      if CanAcquireFair(m2, n, IdOf(slot2)) then
        var m3 := Grant(m2, slot2, n);
        (m3, None, true, WakeNext(m3))
      else (m2, slot2, false, None)
  }

  function DropAcquire(m: Sem, slot: Option<Entry>): (Sem, Option<Entry>) {
    if slot.None? then (m, None)
    else
      var m1 := m.(q := Deregister(m.q, slot));
      (m1, WakeNext(m1))
  }

  // ---------------- runs ----------------

  function Sum(s: seq<nat>): nat {
    if s == [] then 0 else s[0] + Sum(s[1..])
  }

  /**
   The semaphore, its live futures with the size each asks for, the live permits,
   and the accounts: permits forgotten, permits lost to an overflow panic, and
   all permits ever put in.  `granted` lists the tokens of registered futures in
   the order in which they were granted.
   */
  datatype Sys = Sys(m: Sem, futs: map<nat, Fut>, want: map<nat, nat>, held: seq<nat>,
                     forgotten: nat, lost: nat, total: nat, granted: seq<nat>)

  datatype Action =
    | NewAcquire(f: nat, n: nat)
    | Poll(f: nat, waker: nat)
    | DropFuture(f: nat)
    | TryAcquireNow(n: nat)
    | DropPermit(i: nat)
    | Forget(i: nat)
    | Add(n: nat)

  predicate Enabled(s: Sys, a: Action) {
    match a
    case NewAcquire(f, _) => f !in s.futs
    case Poll(f, _) => f in s.futs && f in s.want
    case DropFuture(f) => f in s.futs
    case TryAcquireNow(_) => true
    case DropPermit(i) => i < |s.held|
    case Forget(i) => i < |s.held|
    case Add(_) => true
  }

  function Apply(s: Sys, a: Action): Sys
    requires Enabled(s, a)
  {
    match a
    case NewAcquire(f, n) => s.(futs := s.futs[f := Fut(None, false)], want := s.want[f := n])
    case Poll(f, waker) =>
      var slot, n := s.futs[f].slot, s.want[f];
      var (m, slot', ready, woken) := PollAcquire(s.m, slot, n, waker);
      s.(m := m, futs := WakeOwner(s.futs[f := Fut(slot', false)], woken),
         held := if ready then s.held + [n] else s.held,
         granted := if ready && slot.Some? then s.granted + [slot.value.id] else s.granted)
    case DropFuture(f) =>
      var (m, woken) := DropAcquire(s.m, s.futs[f].slot);
      s.(m := m, futs := WakeOwner(s.futs - {f}, woken))
    case TryAcquireNow(n) =>
      var (m, ok) := TryAcquire(s.m, n);
      s.(m := m, held := if ok then s.held + [n] else s.held)
    case DropPermit(i) =>
      var (m, woken, panics) := AddPermits(s.m, s.held[i]);
      s.(m := m, futs := WakeOwner(s.futs, woken), held := s.held[..i] + s.held[i + 1..],
         lost := if panics then s.lost + s.held[i] else s.lost)
    case Forget(i) => s.(held := s.held[..i] + s.held[i + 1..], forgotten := s.forgotten + s.held[i])
    case Add(n) =>
      var (m, woken, panics) := AddPermits(s.m, n);
      s.(m := m, futs := WakeOwner(s.futs, woken), total := if panics then s.total else s.total + n)
  }

  ghost predicate Init(s: Sys) {
    s.m.permits < WORD && s == Sys(Sem(s.m.permits, [], 0), map[], map[], [], 0, 0, s.m.permits, [])
  }

  ghost predicate Next(s: Sys, s': Sys) {
    exists a :: Enabled(s, a) && s' == Apply(s, a)
  }

  ghost predicate IsRun(run: seq<Sys>) {
    && |run| > 0
    && Init(run[0])
    && forall i :: 0 <= i < |run| - 1 ==> Next(run[i], run[i + 1])
  }

  // ---------------- the invariant of every run ----------------

  ghost predicate Conserved(s: Sys) {
    s.m.permits < WORD && s.m.permits + Sum(s.held) + s.forgotten + s.lost == s.total
  }

  /** A woken waiter stays queued, so a registered future is always queued. */
  ghost predicate AllQueued(s: Sys) {
    forall f :: f in s.futs ==>
      f in s.want && (s.futs[f].slot.Some? ==> Queued(s.m.q, s.futs[f].slot.value.id) && s.futs[f].slot.value.need == s.want[f])
  }

  /** Only the front is ever woken, and it stays the front until its own next poll. */
  ghost predicate OnlyFrontWoken(m: Sem, futs: map<nat, Fut>) {
    forall f :: f in futs && futs[f].notified ==> m.q != [] && futs[f].slot == Some(m.q[0])
  }

  ghost predicate Inv(s: Sys) {
    Conserved(s) && Bound(s.m.q, s.m.nextId, s.futs) && AllQueued(s) && OnlyFrontWoken(s.m, s.futs)
  }

  lemma {:induction false} SumAppend(s: seq<nat>, x: nat)
    ensures Sum(s + [x]) == Sum(s) + x
  {
    if s != [] {
      SumAppend(s[1..], x);
      assert (s + [x])[1..] == s[1..] + [x];
    }
  }

  lemma {:induction false} SumRemove(s: seq<nat>, i: nat)
    requires i < |s|
    ensures Sum(s[..i] + s[i + 1..]) + s[i] == Sum(s)
  {
    if i > 0 {
      SumRemove(s[1..], i - 1);
      assert (s[..i] + s[i + 1..])[1..] == s[1..][..i - 1] + s[1..][i..];
    } else {
      assert s[..0] + s[1..] == s[1..];
    }
  }

  /** The second look after registering never grants anything: registering frees no permits and gains no place. */
  lemma RecheckNeverGrants(m: Sem, slot: Option<Entry>, n: nat, waker: nat)
    requires !CanAcquireFair(m, n, IdOf(slot))
    requires m.q != [] ==> m.q[0].id < m.nextId
    ensures var (q, nextId, slot2) := Register(m.q, m.nextId, slot, n, waker);
            && !CanAcquireFair(m.(q := q, nextId := nextId), n, IdOf(slot2))
            && PollAcquire(m, slot, n, waker) == (m.(q := q, nextId := nextId), slot2, false, None)
  {
    hide Queued;
    if m.permits >= n && !Current(m.q, slot, waker) {
      var id := if slot.Some? then slot.value.id else m.nextId;
      assert m.q == [m.q[0]] + m.q[1..];
      assert Others(m.q, id)[0] == m.q[0];
    }
  }

  lemma FrontIdFresh(s: Sys)
    requires Bound(s.m.q, s.m.nextId, s.futs)
    ensures s.m.q != [] ==> s.m.q[0].id < s.m.nextId
  {
    if s.m.q != [] {
      assert HasOwner(s.futs, s.m.q[0]);
    }
  }

  // ---------------- who is woken ----------------

  /** Waking the front, or nobody, leaves nobody else woken. */
  lemma WakeNextOnlyFront(m: Sem, futs: map<nat, Fut>)
    requires Bound(m.q, m.nextId, futs) && OnlyFrontWoken(m, futs)
    ensures OnlyFrontWoken(m, WakeOwner(futs, WakeNext(m)))
  {
    if WakeNext(m).Some? {
      SoleOwner(m.q, m.nextId, futs, 0);
    }
    hide Bound;
  }

  lemma OwnerIsFront(s: Sys, f: nat)
    requires Bound(s.m.q, s.m.nextId, s.futs) && AllQueued(s)
    requires f in s.futs && s.futs[f].slot.Some? && s.m.q != [] && s.m.q[0].id == s.futs[f].slot.value.id
    ensures s.futs[f].slot == Some(s.m.q[0]) && f in s.want && s.m.q[0].need == s.want[f]
  {
    assert HasOwner(s.futs, s.m.q[0]);
    var g :| g in s.futs && s.futs[g].slot == Some(s.m.q[0]);
    assert SameId(s.futs[f], s.futs[g]);
  }

  /** Once future `f` is out of the queue and not woken, only the front can be. */
  lemma LeavingOnlyFront(s: Sys, f: nat)
    requires Bound(s.m.q, s.m.nextId, s.futs) && AllQueued(s) && OnlyFrontWoken(s.m, s.futs) && f in s.futs
    ensures var m := s.m.(q := Deregister(s.m.q, s.futs[f].slot));
            OnlyFrontWoken(m, s.futs[f := Fut(None, false)]) && OnlyFrontWoken(m, s.futs - {f})
  {
    var slot := s.futs[f].slot;
    if slot.Some? && s.m.q != [] {
      if s.m.q[0].id == slot.value.id {
        OwnerIsFront(s, f);
        SoleOwner(s.m.q, s.m.nextId, s.futs, 0);
        assert forall g :: g in s.futs && g != f ==> !s.futs[g].notified;
      } else {
        OthersHead(s.m.q, slot.value.id);
      }
    }
    hide Bound, AllQueued, Others;
  }

  lemma JoiningOnlyFront(s: Sys, f: nat, waker: nat)
    requires Bound(s.m.q, s.m.nextId, s.futs) && AllQueued(s) && OnlyFrontWoken(s.m, s.futs) && f in s.futs
    ensures var (q, nextId, slot) := Register(s.m.q, s.m.nextId, s.futs[f].slot, s.want[f], waker);
            OnlyFrontWoken(s.m.(q := q, nextId := nextId), s.futs[f := Fut(slot, false)])
  {
    FrontIdFresh(s);
    var slot := s.futs[f].slot;
    var id := if slot.Some? then slot.value.id else s.m.nextId;
    if s.m.q != [] {
      if s.m.q[0].id == id {
        OwnerIsFront(s, f);
        SoleOwner(s.m.q, s.m.nextId, s.futs, 0);
        assert forall g :: g in s.futs && g != f ==> !s.futs[g].notified;
      } else {
        OthersHead(s.m.q, id);
      }
    }
    hide Bound, AllQueued, Others, Queued;
  }

  lemma PollOnlyFront(s: Sys, f: nat, waker: nat)
    requires Inv(s) && Enabled(s, Poll(f, waker))
    ensures var s' := Apply(s, Poll(f, waker)); OnlyFrontWoken(s'.m, s'.futs)
  {
    var slot, n := s.futs[f].slot, s.want[f];
    FrontIdFresh(s);
    if CanAcquireFair(s.m, n, IdOf(slot)) {
      var m1 := Grant(s.m, slot, n);
      DeregisterBound(s.m.q, s.m.nextId, s.futs, f);
      LeavingOnlyFront(s, f);
      WakeNextOnlyFront(m1, s.futs[f := Fut(None, false)]);
    } else {
      RecheckNeverGrants(s.m, slot, n, waker);
      JoiningOnlyFront(s, f, waker);
      WakeNobody(s.futs[f := Fut(Register(s.m.q, s.m.nextId, slot, n, waker).2, false)]);
    }
    hide Bound, AllQueued, Conserved, Register, Deregister, WakeOwner, WakeNext, CanAcquireFair;
  }

  // ---------------- steps ----------------

  lemma PollConserves(s: Sys, f: nat, waker: nat)
    requires Inv(s) && Enabled(s, Poll(f, waker))
    ensures Conserved(Apply(s, Poll(f, waker)))
  {
    hide Bound, AllQueued, Deregister, Register, WakeOwner;
    SumAppend(s.held, s.want[f]);
  }

  lemma PollKeepsQueue(s: Sys, f: nat, waker: nat)
    requires Inv(s) && Enabled(s, Poll(f, waker))
    ensures var s' := Apply(s, Poll(f, waker)); Bound(s'.m.q, s'.m.nextId, s'.futs) && AllQueued(s')
  {
    var q, nextId, slot, n := s.m.q, s.m.nextId, s.futs[f].slot, s.want[f];
    FrontIdFresh(s);
    if CanAcquireFair(s.m, n, IdOf(slot)) {
      DeregisterBound(q, nextId, s.futs, f);
      var m1 := Grant(s.m, slot, n);
      WakeBound(m1.q, nextId, s.futs[f := Fut(None, false)], WakeNext(m1));
      WakeKeepsSlots(s.futs[f := Fut(None, false)], WakeNext(m1));
      OthersStayQueued(s, f);
    } else {
      RecheckNeverGrants(s.m, slot, n, waker);
      RegisterBound(q, nextId, s.futs, f, n, waker, false);
      RegisteredStayQueued(s, f, waker);
    }
    hide Bound, CanAcquireFair, Register, Deregister, WakeOwner, WakeNext, Queued;
  }

  lemma OthersStayQueued(s: Sys, f: nat)
    requires AllQueued(s) && Bound(s.m.q, s.m.nextId, s.futs) && f in s.futs
    ensures forall g :: g in s.futs && g != f && s.futs[g].slot.Some? ==>
              Queued(Deregister(s.m.q, s.futs[f].slot), s.futs[g].slot.value.id)
  {
    if s.futs[f].slot.Some? {
      forall g | g in s.futs && g != f && s.futs[g].slot.Some?
        ensures Queued(Deregister(s.m.q, s.futs[f].slot), s.futs[g].slot.value.id)
      {
        assert !SameId(s.futs[f], s.futs[g]);
        OthersQueued(s.m.q, s.futs[f].slot.value.id, s.futs[g].slot.value.id);
      }
    }
  }

  lemma RegisteredStayQueued(s: Sys, f: nat, waker: nat)
    requires AllQueued(s) && f in s.futs
    ensures var (q, _, slot) := Register(s.m.q, s.m.nextId, s.futs[f].slot, s.want[f], waker);
            && slot.Some? && slot.value.need == s.want[f] && Queued(q, slot.value.id)
            && forall g :: g in s.futs && g != f && s.futs[g].slot.Some? ==> Queued(q, s.futs[g].slot.value.id)
  {
    var (q, _, slot) := Register(s.m.q, s.m.nextId, s.futs[f].slot, s.want[f], waker);
    RegisterQueued(s.m.q, s.m.nextId, s.futs[f].slot, s.want[f], waker, slot.value.id);
    forall g | g in s.futs && g != f && s.futs[g].slot.Some? ensures Queued(q, s.futs[g].slot.value.id) {
      RegisterQueued(s.m.q, s.m.nextId, s.futs[f].slot, s.want[f], waker, s.futs[g].slot.value.id);
    }
  }

  lemma DropFutureInv(s: Sys, f: nat)
    requires Inv(s) && f in s.futs
    ensures Inv(Apply(s, DropFuture(f)))
  {
    var slot := s.futs[f].slot;
    DeregisterBound(s.m.q, s.m.nextId, s.futs, f);
    OthersStayQueued(s, f);
    var (m, woken) := DropAcquire(s.m, slot);
    LeavingOnlyFront(s, f);
    WakeNextOnlyFront(s.m.(q := Deregister(s.m.q, slot)), s.futs - {f});
    WakeBound(m.q, m.nextId, s.futs - {f}, woken);
    WakeKeepsSlots(s.futs - {f}, woken);
    hide Bound, WakeOwner, WakeNext, Queued, Others;
  }

  lemma AddOnlyFront(m: Sem, futs: map<nat, Fut>, n: nat)
    requires Bound(m.q, m.nextId, futs) && OnlyFrontWoken(m, futs)
    ensures var (m', woken, _) := AddPermits(m, n); OnlyFrontWoken(m', WakeOwner(futs, woken))
  {
    WakeNextOnlyFront(m.(permits := m.permits + n), futs);
    WakeNobody(futs);
    hide Bound, WakeOwner, WakeNext;
  }

  lemma ReturnInv(s: Sys, a: Action)
    requires Inv(s) && Enabled(s, a) && (a.DropPermit? || a.Forget? || a.Add? || a.TryAcquireNow?)
    ensures Inv(Apply(s, a))
  {
    hide Bound, WakeOwner, WakeNext, Queued;
    match a {
      case DropPermit(i) =>
        SumRemove(s.held, i);
        var (m, woken, _) := AddPermits(s.m, s.held[i]);
        AddOnlyFront(s.m, s.futs, s.held[i]);
        WakeBound(s.m.q, s.m.nextId, s.futs, woken);
        WakeKeepsSlots(s.futs, woken);
      case Forget(i) =>
        SumRemove(s.held, i);
      case Add(n) =>
        var (m, woken, _) := AddPermits(s.m, n);
        AddOnlyFront(s.m, s.futs, n);
        WakeBound(s.m.q, s.m.nextId, s.futs, woken);
        WakeKeepsSlots(s.futs, woken);
      case TryAcquireNow(n) =>
        SumAppend(s.held, n);
    }
  }

  lemma NewInv(s: Sys, f: nat, n: nat)
    requires Inv(s) && f !in s.futs
    ensures Inv(Apply(s, NewAcquire(f, n)))
  {
    NewFutureBound(s.m.q, s.m.nextId, s.futs, f);
    hide Bound, Queued;
  }

  lemma StepInv(s: Sys, a: Action)
    requires Inv(s) && Enabled(s, a)
    ensures Inv(Apply(s, a))
  {
    hide Bound, AllQueued, Conserved, OnlyFrontWoken, PollAcquire, DropAcquire, AddPermits, TryAcquire;
    match a {
      case NewAcquire(f, n) => NewInv(s, f, n);
      case Poll(f, waker) => PollConserves(s, f, waker); PollKeepsQueue(s, f, waker); PollOnlyFront(s, f, waker);
      case DropFuture(f) => DropFutureInv(s, f);
      case TryAcquireNow(_) => ReturnInv(s, a);
      case DropPermit(_) => ReturnInv(s, a);
      case Forget(_) => ReturnInv(s, a);
      case Add(_) => ReturnInv(s, a);
    }
  }

  lemma {:induction false} RunInv(run: seq<Sys>, i: nat)
    requires IsRun(run) && i < |run|
    ensures Inv(run[i])
  {
    if i > 0 {
      RunInv(run, i - 1);
      hide Inv, Apply;
      assert Next(run[i - 1], run[i - 1 + 1]);
      var a :| Enabled(run[i - 1], a) && run[i] == Apply(run[i - 1], a);
      StepInv(run[i - 1], a);
    }
  }
}

/**
 What the semaphore guarantees: conservation in every run; a woken front and
 grants in registration order in every run whose futures are re-polled with an
 equivalent waker; and exactly when a poll breaks the former.
 */
module LocalSemaphoreTheorems {
  import opened Wrappers
  import opened Waiters
  import opened LocalSemaphore

  /** Permits available, held, forgotten and lost to an overflow panic add up to all that were ever put in. */
  lemma PermitsConserved(run: seq<Sys>, i: nat)
    requires IsRun(run) && i < |run|
    ensures var s := run[i]; s.m.permits + Sum(s.held) + s.forgotten + s.lost == s.total
  {
    RunInv(run, i);
  }

  /** Every registered future is queued exactly once, with the size it asks for. */
  lemma RegisteredIsQueued(run: seq<Sys>, i: nat, f: nat)
    requires IsRun(run) && i < |run| && f in run[i].futs && run[i].futs[f].slot.Some?
    ensures var s := run[i]; var e := s.futs[f].slot.value;
            && f in s.want && e.need == s.want[f] && e in s.m.q && OneOwner(s.futs, e) && DistinctIds(s.m.q)
  {
    RunInv(run, i);
    var s := run[i];
    SlotInQueue(s, f);
    var j :| 0 <= j < |s.m.q| && s.m.q[j] == s.futs[f].slot.value;
    SoleOwner(s.m.q, s.m.nextId, s.futs, j);
  }

  lemma SlotInQueue(s: Sys, f: nat)
    requires Inv(s) && f in s.futs && s.futs[f].slot.Some?
    ensures exists j :: 0 <= j < |s.m.q| && s.m.q[j] == s.futs[f].slot.value
  {
    var e := s.futs[f].slot.value;
    var j :| 0 <= j < |s.m.q| && s.m.q[j].id == e.id;
    assert HasOwner(s.futs, s.m.q[j]);
    var g :| g in s.futs && s.futs[g].slot == Some(s.m.q[j]);
    assert SameId(s.futs[f], s.futs[g]);
  }

  // ---------------- the front is woken ----------------

  ghost predicate OwnerNotified(futs: map<nat, Fut>, e: Entry) {
    forall f :: f in futs && futs[f].slot == Some(e) ==> futs[f].notified
  }

  /** A front waiter whose request fits has been woken since its last poll. */
  ghost predicate FrontNotified(m: Sem, futs: map<nat, Fut>) {
    m.q != [] && m.q[0].need <= m.permits ==> OwnerNotified(futs, m.q[0])
  }

  /**
   The poll that strands a waiter: the front, whose request does not fit, comes
   back with a different waker and is moved behind a waiter whose request fits.
   */
  predicate Demotes(s: Sys, f: nat, waker: nat)
    requires f in s.futs
  {
    && s.futs[f].slot.Some? && s.futs[f].slot.value.waker != waker
    && |s.m.q| > 1 && s.m.q[0].id == s.futs[f].slot.value.id
    && s.m.q[0].need > s.m.permits >= s.m.q[1].need
  }

  lemma WakeNextNotifies(m: Sem, futs: map<nat, Fut>)
    ensures FrontNotified(m, WakeOwner(futs, WakeNext(m)))
  {
  }

  /** Whether another future's entry counts as woken does not depend on future `f`. */
  lemma OwnerElsewhere(futs: map<nat, Fut>, f: nat, slot: Option<Entry>, e: Entry)
    requires f in futs && !OwnsId(futs[f], e.id) && (slot.Some? ==> slot.value.id != e.id)
    ensures OwnerNotified(futs[f := Fut(slot, false)], e) <==> OwnerNotified(futs, e)
  {
    var futs' := futs[f := Fut(slot, false)];
    assert forall g :: g in futs && g != f ==> futs'[g] == futs[g];
    assert futs[f].slot != Some(e) && futs'[f].slot != Some(e);
    if OwnerNotified(futs', e) {
      forall g | g in futs && futs[g].slot == Some(e) ensures futs[g].notified {
        assert futs'[g].notified;
      }
    }
  }

  /** A pending poll by anybody but the front leaves the front as it was. */
  lemma PendingBehindFront(s: Sys, f: nat, waker: nat)
    requires Inv(s) && Enabled(s, Poll(f, waker)) && FrontNotified(s.m, s.futs)
    requires s.m.q != [] && !OwnsId(s.futs[f], s.m.q[0].id)
    ensures var (q, nextId, slot) := Register(s.m.q, s.m.nextId, s.futs[f].slot, s.want[f], waker);
            FrontNotified(s.m.(q := q, nextId := nextId), s.futs[f := Fut(slot, false)])
  {
    FrontIdFresh(s);
    var (q, nextId, slot) := Register(s.m.q, s.m.nextId, s.futs[f].slot, s.want[f], waker);
    if !Current(s.m.q, s.futs[f].slot, waker) {
      OthersHead(s.m.q, slot.value.id);
    }
    hide Inv, Current, Others;
    OwnerElsewhere(s.futs, f, slot, s.m.q[0]);
  }

  /** The second in line has not been woken. */
  lemma SecondIsAsleep(s: Sys)
    requires Inv(s) && |s.m.q| > 1
    ensures !OwnerNotified(s.futs, s.m.q[1])
  {
    assert HasOwner(s.futs, s.m.q[1]);
    var g :| g in s.futs && s.futs[g].slot == Some(s.m.q[1]);
    assert s.m.q[0].id != s.m.q[1].id;
  }

  /** A pending poll by the front keeps the front woken unless it demotes it behind one that fits. */
  lemma PendingFront(s: Sys, f: nat, waker: nat)
    requires Inv(s) && Enabled(s, Poll(f, waker))
    requires s.m.q != [] && OwnsId(s.futs[f], s.m.q[0].id) && !CanAcquireFair(s.m, s.want[f], IdOf(s.futs[f].slot))
    ensures var (q, nextId, slot) := Register(s.m.q, s.m.nextId, s.futs[f].slot, s.want[f], waker);
            FrontNotified(s.m.(q := q, nextId := nextId), s.futs[f := Fut(slot, false)]) <==> !Demotes(s, f, waker)
  {
    OwnerIsFront(s, f);
    var (q, nextId, slot) := Register(s.m.q, s.m.nextId, s.futs[f].slot, s.want[f], waker);
    assert Queued(s.m.q, s.m.q[0].id);
    if s.futs[f].slot.value.waker != waker {
      OthersTail(s.m.q);
      assert q == s.m.q[1..] + [slot.value];
      if |s.m.q| > 1 {
        assert s.m.q[1].id != s.m.q[0].id;
        OwnerElsewhere(s.futs, f, slot, s.m.q[1]);
        SecondIsAsleep(s);
      }
    }
    hide Inv, Others, Queued;
  }

  lemma FirstInLine(s: Sys, f: nat, waker: nat)
    requires s.m.q == [] && f in s.futs && f in s.want && !CanAcquireFair(s.m, s.want[f], IdOf(s.futs[f].slot))
    ensures var (q, nextId, slot) := Register(s.m.q, s.m.nextId, s.futs[f].slot, s.want[f], waker);
            FrontNotified(s.m.(q := q, nextId := nextId), s.futs[f := Fut(slot, false)])
  {
    assert !Queued([], if s.futs[f].slot.Some? then s.futs[f].slot.value.id else 0);
  }

  /** A poll keeps the front woken exactly when it does not demote it: the test can be made before the poll. */
  lemma PollKeepsFrontExactly(s: Sys, f: nat, waker: nat)
    requires Inv(s) && Enabled(s, Poll(f, waker)) && FrontNotified(s.m, s.futs)
    ensures var s' := Apply(s, Poll(f, waker)); FrontNotified(s'.m, s'.futs) <==> !Demotes(s, f, waker)
  {
    var slot, n := s.futs[f].slot, s.want[f];
    FrontIdFresh(s);
    if s.m.q != [] && OwnsId(s.futs[f], s.m.q[0].id) {
      OwnerIsFront(s, f);
    }
    if CanAcquireFair(s.m, n, IdOf(slot)) {
      var m1 := Grant(s.m, slot, n);
      WakeNextNotifies(m1, s.futs[f := Fut(None, false)]);
    } else {
      RecheckNeverGrants(s.m, slot, n, waker);
      WakeNobody(s.futs[f := Fut(Register(s.m.q, s.m.nextId, slot, n, waker).2, false)]);
      if s.m.q == [] {
        FirstInLine(s, f, waker);
      } else if OwnsId(s.futs[f], s.m.q[0].id) {
        PendingFront(s, f, waker);
      } else {
        PendingBehindFront(s, f, waker);
      }
    }
    hide Inv, FrontNotified, Register, Deregister, WakeOwner, WakeNext, OwnerNotified;
  }

  /** No other operation leaves a fitting front unwoken. */
  lemma OtherStepsKeepFront(s: Sys, a: Action)
    requires Inv(s) && Enabled(s, a) && FrontNotified(s.m, s.futs) && !a.Poll?
    ensures var s' := Apply(s, a); FrontNotified(s'.m, s'.futs)
  {
    match a {
      case NewAcquire(f, n) => assert forall g :: g in s.futs ==> s.futs[f := Fut(None, false)][g] == s.futs[g];
      case DropFuture(f) =>
        if s.futs[f].slot.Some? {
          var m1 := s.m.(q := Deregister(s.m.q, s.futs[f].slot));
          WakeNextNotifies(m1, s.futs - {f});
        }
      case TryAcquireNow(_) =>
      case DropPermit(i) => AddKeepsFront(s.m, s.futs, s.held[i]);
      case Forget(_) =>
      case Add(n) => AddKeepsFront(s.m, s.futs, n);
    }
    hide Inv, Deregister, WakeNext, AddPermits;
  }

  lemma AddKeepsFront(m: Sem, futs: map<nat, Fut>, n: nat)
    requires FrontNotified(m, futs)
    ensures var (m', woken, _) := AddPermits(m, n); FrontNotified(m', WakeOwner(futs, woken))
  {
    WakeNextNotifies(m.(permits := m.permits + n), futs);
  }

  /** In every run only the front is ever woken. */
  lemma OnlyFrontIsWoken(run: seq<Sys>, i: nat, f: nat)
    requires IsRun(run) && i < |run| && f in run[i].futs && run[i].futs[f].notified
    ensures run[i].m.q != [] && run[i].futs[f].slot == Some(run[i].m.q[0])
  {
    RunInv(run, i);
  }

  // ---------------- runs with equivalent wakers ----------------

  /** A re-poll uses a waker equivalent to the registered one. */
  predicate Polite(s: Sys, a: Action) {
    a.Poll? && a.f in s.futs && s.futs[a.f].slot.Some? ==> s.futs[a.f].slot.value.waker == a.waker
  }

  ghost predicate PoliteNext(s: Sys, s': Sys) {
    exists a :: Enabled(s, a) && Polite(s, a) && s' == Apply(s, a)
  }

  ghost predicate IsPoliteRun(run: seq<Sys>) {
    && |run| > 0
    && Init(run[0])
    && forall i :: 0 <= i < |run| - 1 ==> PoliteNext(run[i], run[i + 1])
  }

  predicate AscendingIds(q: seq<Entry>) {
    forall i, j :: 0 <= i < j < |q| ==> q[i].id < q[j].id
  }

  /** Tokens are queued in registration order, and everybody granted so far registered before everybody queued. */
  ghost predicate Fifo(s: Sys) {
    && AscendingIds(s.m.q)
    && (forall i :: 0 <= i < |s.m.q| ==> s.m.q[i].id < s.m.nextId)
    && (forall i :: 0 <= i < |s.granted| ==> s.granted[i] < s.m.nextId)
    && (forall i, j :: 0 <= i < j < |s.granted| ==> s.granted[i] < s.granted[j])
    && (forall i, j :: 0 <= i < |s.granted| && 0 <= j < |s.m.q| ==> s.granted[i] < s.m.q[j].id)
  }

  /** `r` consists of entries of `q`, in ascending order. */
  predicate Sub(q: seq<Entry>, r: seq<Entry>) {
    AscendingIds(r) && forall e :: e in r ==> e in q
  }

  lemma {:induction false} OthersSub(q: seq<Entry>, id: nat)
    requires AscendingIds(q)
    ensures Sub(q, Others(q, id))
  {
    if q != [] {
      var rest := Others(q[1..], id);
      assert forall i :: 0 <= i < |q[1..]| ==> q[1..][i] == q[i + 1];
      OthersSub(q[1..], id);
      assert q == [q[0]] + q[1..];
      forall j | 0 <= j < |rest| ensures q[0].id < rest[j].id {
        assert rest[j] in rest && rest[j] in q[1..];
      }
    }
  }

  lemma FifoShrinks(s: Sys, r: seq<Entry>)
    requires Fifo(s) && Sub(s.m.q, r)
    ensures Fifo(s.(m := s.m.(q := r)))
  {
    forall i | 0 <= i < |r|
      ensures r[i].id < s.m.nextId
      ensures forall k :: 0 <= k < |s.granted| ==> s.granted[k] < r[i].id
    {
      assert r[i] in r && r[i] in s.m.q;
      var j :| 0 <= j < |s.m.q| && s.m.q[j] == r[i];
    }
  }

  lemma GrantKeepsFifo(s: Sys, f: nat)
    requires Inv(s) && Fifo(s) && f in s.futs && f in s.want && CanAcquireFair(s.m, s.want[f], IdOf(s.futs[f].slot))
    ensures var slot := s.futs[f].slot;
            Fifo(s.(m := Grant(s.m, slot, s.want[f]),
                    granted := if slot.Some? then s.granted + [slot.value.id] else s.granted))
  {
    var slot := s.futs[f].slot;
    if slot.Some? {
      SlotInQueue(s, f);
      OthersTail(s.m.q);
      var q := s.m.q;
      assert slot.value.id == q[0].id;
      assert forall j :: 0 <= j < |q[1..]| ==> q[1..][j] == q[j + 1];
    }
    hide Inv, Others;
  }

  lemma AppendKeepsFifo(s: Sys, e: Entry)
    requires Fifo(s) && e.id == s.m.nextId
    ensures Fifo(s.(m := s.m.(q := s.m.q + [e], nextId := s.m.nextId + 1)))
  {
  }

  lemma JoinKeepsFifo(s: Sys, f: nat, waker: nat)
    requires Inv(s) && Fifo(s) && Enabled(s, Poll(f, waker)) && Polite(s, Poll(f, waker))
    ensures var (q, nextId, slot) := Register(s.m.q, s.m.nextId, s.futs[f].slot, s.want[f], waker);
            Fifo(s.(m := s.m.(q := q, nextId := nextId)))
  {
    if s.futs[f].slot.None? {
      OthersAll(s.m.q, s.m.nextId);
      AppendKeepsFifo(s, Entry(s.m.nextId, s.want[f], waker));
    } else {
      assert Current(s.m.q, s.futs[f].slot, waker);
    }
    hide Inv, Others, Queued, Fifo;
  }

  /** The poll that spoils the order: a pending future that is not the last one comes back with a different waker. */
  predicate LosesPlace(s: Sys, f: nat, waker: nat)
    requires f in s.futs && f in s.want
  {
    && s.futs[f].slot.Some? && s.futs[f].slot.value.waker != waker
    && !CanAcquireFair(s.m, s.want[f], IdOf(s.futs[f].slot))
    && s.m.q != [] && s.m.q[|s.m.q| - 1].id != s.futs[f].slot.value.id
  }

  /** A poll keeps the queue in registration order exactly when nobody loses a place by it. */
  lemma PollKeepsOrderExactly(s: Sys, f: nat, waker: nat)
    requires Inv(s) && Enabled(s, Poll(f, waker)) && AscendingIds(s.m.q)
    ensures AscendingIds(Apply(s, Poll(f, waker)).m.q) <==> !LosesPlace(s, f, waker)
  {
    var slot, n := s.futs[f].slot, s.want[f];
    FrontIdFresh(s);
    if CanAcquireFair(s.m, n, IdOf(slot)) {
      if slot.Some? {
        OthersSub(s.m.q, slot.value.id);
      }
    } else {
      RecheckNeverGrants(s.m, slot, n, waker);
      if slot.Some? {
        MoveToBackOrder(s.m.q, slot.value.id, Entry(slot.value.id, n, waker));
        assert Queued(s.m.q, slot.value.id);
      } else {
        FreshIdOrder(s, Entry(s.m.nextId, n, waker));
      }
    }
    hide Inv, Others, WakeOwner, WakeNext, AscendingIds, CanAcquireFair, Queued;
  }

  lemma MoveToBackOrder(q: seq<Entry>, id: nat, e: Entry)
    requires AscendingIds(q) && Queued(q, id) && e.id == id
    ensures AscendingIds(Others(q, id) + [e]) <==> q[|q| - 1].id == id
  {
    hide Others;
    OthersSub(q, id);
    OthersKeeps(q, id);
    var r := Others(q, id);
    var last := q[|q| - 1];
    if last.id == id {
      forall j | 0 <= j < |r| ensures r[j].id < id {
        assert r[j] in r && r[j] in q;
      }
    } else {
      assert last in q && last in r;
      var j :| 0 <= j < |r| && r[j] == last;
      assert (r + [e])[j] == last && (r + [e])[|r|] == e;
      var i :| 0 <= i < |q| && q[i].id == id;
      assert id < last.id;
    }
  }

  lemma FreshIdOrder(s: Sys, e: Entry)
    requires Inv(s) && AscendingIds(s.m.q) && e.id == s.m.nextId
    ensures AscendingIds(Others(s.m.q, e.id) + [e])
  {
    OthersSub(s.m.q, e.id);
    var r := Others(s.m.q, e.id);
    forall j | 0 <= j < |r| ensures r[j].id < e.id {
      assert r[j] in r && r[j] in s.m.q;
      EntryHasOwner(s.m.q, s.m.nextId, s.futs, r[j]);
    }
  }

  lemma StepFifo(s: Sys, a: Action)
    requires Inv(s) && Fifo(s) && Enabled(s, a) && Polite(s, a)
    ensures Fifo(Apply(s, a))
  {
    if a.Poll? {
      var slot, n := s.futs[a.f].slot, s.want[a.f];
      FrontIdFresh(s);
      if CanAcquireFair(s.m, n, IdOf(slot)) {
        GrantKeepsFifo(s, a.f);
      } else {
        RecheckNeverGrants(s.m, slot, n, a.waker);
        JoinKeepsFifo(s, a.f, a.waker);
      }
    } else if a.DropFuture? && s.futs[a.f].slot.Some? {
      OthersSub(s.m.q, s.futs[a.f].slot.value.id);
      FifoShrinks(s, Deregister(s.m.q, s.futs[a.f].slot));
    }
    hide Inv, Register, Others, WakeOwner, WakeNext, AscendingIds, CanAcquireFair, Grant;
  }

  lemma {:induction false} PoliteRunInv(run: seq<Sys>, i: nat)
    requires IsPoliteRun(run) && i < |run|
    ensures Inv(run[i]) && Fifo(run[i]) && FrontNotified(run[i].m, run[i].futs)
  {
    if i > 0 {
      PoliteRunInv(run, i - 1);
      hide Inv, Apply, Fifo, FrontNotified;
      assert PoliteNext(run[i - 1], run[i - 1 + 1]);
      var a :| Enabled(run[i - 1], a) && Polite(run[i - 1], a) && run[i] == Apply(run[i - 1], a);
      StepInv(run[i - 1], a);
      StepFifo(run[i - 1], a);
      if a.Poll? {
        PollKeepsFrontExactly(run[i - 1], a.f, a.waker);
      } else {
        OtherStepsKeepFront(run[i - 1], a);
      }
    }
  }

  /** With equivalent wakers, whenever the front request fits its future has been woken. */
  lemma FrontAlwaysWoken(run: seq<Sys>, i: nat, f: nat)
    requires IsPoliteRun(run) && i < |run|
    requires run[i].m.q != [] && run[i].m.q[0].need <= run[i].m.permits
    requires f in run[i].futs && run[i].futs[f].slot == Some(run[i].m.q[0])
    ensures run[i].futs[f].notified
  {
    PoliteRunInv(run, i);
  }

  /** With equivalent wakers, awaited grants follow first-registration order, and everybody queued comes later. */
  lemma GrantsInOrder(run: seq<Sys>, i: nat)
    requires IsPoliteRun(run) && i < |run|
    ensures var s := run[i];
            && (forall j, k :: 0 <= j < k < |s.granted| ==> s.granted[j] < s.granted[k])
            && (forall j, k :: 0 <= j < |s.granted| && 0 <= k < |s.m.q| ==> s.granted[j] < s.m.q[k].id)
            && AscendingIds(s.m.q)
  {
    PoliteRunInv(run, i);
  }

  /** In every run, an awaited grant goes to the front or finds nobody queued; a smaller request never overtakes. */
  lemma GrantsOnlyToFront(run: seq<Sys>, i: nat, f: nat, waker: nat)
    requires IsRun(run) && i < |run| && Enabled(run[i], Poll(f, waker))
    ensures var s := run[i]; var s' := Apply(s, Poll(f, waker));
            (|s'.held| > |s.held| <==> s.want[f] <= s.m.permits && (s.m.q == [] || s.futs[f].slot == Some(s.m.q[0])))
  {
    RunInv(run, i);
    var s := run[i];
    var slot, n := s.futs[f].slot, s.want[f];
    FrontIdFresh(s);
    if s.m.q != [] && OwnsId(s.futs[f], s.m.q[0].id) {
      OwnerIsFront(s, f);
    }
    if !CanAcquireFair(s.m, n, IdOf(slot)) {
      RecheckNeverGrants(s.m, slot, n, waker);
    }
    hide Inv, Register, Deregister, WakeOwner, WakeNext;
  }

  // ---------------- without equivalent wakers ----------------

  /** One permit; future 0 asks for two and future 1 for one; `m` and the slots vary. */
  function Scene(m: Sem, futs: map<nat, Fut>): Sys {
    Sys(m, futs, map[0 := 2, 1 := 1], [], 0, 0, 1, [])
  }

  const BIG: Entry := Entry(0, 2, 7)
  const SMALL: Entry := Entry(1, 1, 8)

  function Unpolled(): Sys {
    Scene(Sem(1, [], 0), map[0 := Fut(None, false), 1 := Fut(None, false)])
  }

  function BigWaits(): Sys {
    Scene(Sem(1, [BIG], 1), map[0 := Fut(Some(BIG), false), 1 := Fut(None, false)])
  }

  function BothWait(): Sys {
    Scene(Sem(1, [BIG, SMALL], 2), map[0 := Fut(Some(BIG), false), 1 := Fut(Some(SMALL), false)])
  }

  /** Future 0 came back with waker 9 and now stands behind future 1. */
  function Stranded(): Sys {
    var moved := Entry(0, 2, 9);
    Scene(Sem(1, [SMALL, moved], 2), map[0 := Fut(Some(moved), false), 1 := Fut(Some(SMALL), false)])
  }

  lemma PollPends(s: Sys, f: nat, waker: nat)
    requires Enabled(s, Poll(f, waker)) && !CanAcquireFair(s.m, s.want[f], IdOf(s.futs[f].slot))
    requires s.m.q != [] ==> s.m.q[0].id < s.m.nextId
    ensures var (q, nextId, slot) := Register(s.m.q, s.m.nextId, s.futs[f].slot, s.want[f], waker);
            Apply(s, Poll(f, waker)) == s.(m := s.m.(q := q, nextId := nextId), futs := s.futs[f := Fut(slot, false)])
  {
    RecheckNeverGrants(s.m, s.futs[f].slot, s.want[f], waker);
    hide Register, CanAcquireFair;
  }

  lemma BigJoins()
    ensures Apply(Unpolled(), Poll(0, 7)) == BigWaits()
  {
    PollPends(Unpolled(), 0, 7);
    OthersKeeps([], 0);
    hide Others, Apply;
  }

  lemma SmallJoins()
    ensures Apply(BigWaits(), Poll(1, 8)) == BothWait()
  {
    PollPends(BigWaits(), 1, 8);
    OthersKeeps([BIG], 1);
    hide Others, Apply;
  }

  lemma BigIsDemoted()
    ensures Apply(BothWait(), Poll(0, 9)) == Stranded()
  {
    PollPends(BothWait(), 0, 9);
    OthersTail([BIG, SMALL]);
    hide Others, Apply;
  }

  lemma StrandingRun() returns (run: seq<Sys>)
    ensures IsRun(run) && |run| == 6 && run[5] == Stranded()
  {
    var s0 := Sys(Sem(1, [], 0), map[], map[], [], 0, 0, 1, []);
    var s1 := Apply(s0, NewAcquire(0, 2));
    assert Next(s0, s1);
    assert Apply(s1, NewAcquire(1, 1)) == Unpolled();
    assert Next(s1, Unpolled());
    BigJoins();
    SmallJoins();
    BigIsDemoted();
    run := [s0, s1, Unpolled(), BigWaits(), BothWait(), Stranded()];
    hide Apply;
    assert Next(Unpolled(), BigWaits()) by { assert Enabled(Unpolled(), Poll(0, 7)); }
    assert Next(BigWaits(), BothWait()) by { assert Enabled(BigWaits(), Poll(1, 8)); }
    assert Next(BothWait(), Stranded()) by { assert Enabled(BothWait(), Poll(0, 9)); }
    assert Init(run[0]);
    hide Next, Init, BigWaits, BothWait, Stranded, Unpolled;
    assert forall i :: 0 <= i < 5 ==> Next(run[i], run[i + 1]);
  }

  /** A run in which a waiter whose request fits stands at the front and was never woken. */
  lemma FrontCanBeStranded()
    ensures exists run: seq<Sys> ::
              IsRun(run) && |run| == 6 && !FrontNotified(run[5].m, run[5].futs) && !AscendingIds(run[5].m.q)
  {
    var run := StrandingRun();
    hide IsRun;
    assert !FrontNotified(run[5].m, run[5].futs) by {
      assert Stranded().futs[1] == Fut(Some(SMALL), false);
    }
    assert run[5].m.q[0].id > run[5].m.q[1].id;
  }

  /** Future 1 was granted; two more permits arrived and future 0 was woken. */
  function SmallServed(): Sys {
    var moved := Entry(0, 2, 9);
    Sys(Sem(0, [moved], 2), map[0 := Fut(Some(moved), false), 1 := Fut(None, false)], map[0 := 2, 1 := 1], [1], 0, 0, 1, [1])
  }

  function BigWoken(): Sys {
    var moved := Entry(0, 2, 9);
    Sys(Sem(2, [moved], 2), map[0 := Fut(Some(moved), true), 1 := Fut(None, false)], map[0 := 2, 1 := 1], [1], 0, 0, 3, [1])
  }

  lemma SmallGranted()
    ensures Apply(Stranded(), Poll(1, 8)) == SmallServed()
  {
    OthersTail([SMALL, Entry(0, 2, 9)]);
    var s := Stranded();
    assert Grant(s.m, Some(SMALL), 1) == SmallServed().m;
    WakeNobody(SmallServed().futs);
    hide Others, WakeOwner;
  }

  lemma BigGetsTurn()
    ensures Apply(SmallServed(), Add(2)) == BigWoken()
  {
    assert WakeOwner(SmallServed().futs, Some(Entry(0, 2, 9))) == BigWoken().futs;
  }

  lemma BigGranted()
    ensures var s := BigWoken(); Enabled(s, Poll(0, 9)) && Apply(s, Poll(0, 9)).granted == [1, 0]
  {
    hide Others, WakeOwner, WakeNext;
  }

  lemma ExtendRun(run: seq<Sys>, a: Action)
    requires IsRun(run) && Enabled(run[|run| - 1], a)
    ensures IsRun(run + [Apply(run[|run| - 1], a)])
  {
    hide Apply, Init;
    var s := run[|run| - 1];
    var next := run + [Apply(s, a)];
    assert Next(s, Apply(s, a));
    forall i | 0 <= i < |next| - 1 ensures Next(next[i], next[i + 1]) {
      if i < |run| - 1 {
        assert Next(run[i], run[i + 1]);
      }
    }
  }

  /** A run in which the future that registered second is granted first, although both only awaited. */
  lemma GrantsCanBeReversed()
    ensures exists run: seq<Sys> :: IsRun(run) && |run| == 9 && run[8].granted == [1, 0]
  {
    var run := StrandingRun();
    SmallGranted();
    BigGetsTurn();
    BigGranted();
    assert Enabled(Stranded(), Poll(1, 8));
    hide IsRun, Apply, Stranded, SmallServed, BigWoken;
    ExtendRun(run, Poll(1, 8));
    var run1 := run + [SmallServed()];
    ExtendRun(run1, Add(2));
    var run2 := run1 + [BigWoken()];
    ExtendRun(run2, Poll(0, 9));
    var run3 := run2 + [Apply(BigWoken(), Poll(0, 9))];
    assert IsRun(run3) && |run3| == 9 && run3[8].granted == [1, 0];
  }

  /** `try_acquire_many` looks at the permits alone, and takes exactly what it grants. */
  lemma BargingLooksAtPermits(s: Sys, n: nat)
    ensures var s' := Apply(s, TryAcquireNow(n));
            && (s'.held == s.held + [n] <==> n <= s.m.permits)
            && s'.m.permits + Sum(s'.held) == s.m.permits + Sum(s.held)
            && s'.m.q == s.m.q && s'.futs == s.futs
  {
    SumAppend(s.held, n);
  }
}

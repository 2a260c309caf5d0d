/** The per-core buffer pool: a free list guarded by the counting semaphore. */
module LocalBufferPool {
  import opened Wrappers
  import opened WordArithmetic
  import opened Waiters
  import S = LocalSemaphore
  import T = LocalSemaphoreTheorems

  /** A buffer: its identity, its logical length and all its elements. */
  datatype Buf = Buf(id: nat, len: nat, data: seq<nat>)

  /** `out` are the buffers in borrowers' hands; `failed` says that `check_out` found the free list empty. */
  datatype Pool = Pool(sem: S.Sys, free: seq<Buf>, out: seq<Buf>, clear: bool, failed: bool)

  function Zeros(n: nat): seq<nat> {
    seq(n, _ => 0)
  }

  /** What a borrower receives. */
  function Clean(b: Buf, clear: bool): Buf {
    Buf(b.id, 0, if clear then Zeros(|b.data|) else b.data)
  }

  /** Pop the most recently returned buffer. */
  function CheckOut(p: Pool): Pool {
    if p.free == [] then p.(failed := true)
    else p.(free := p.free[..|p.free| - 1], out := p.out + [Clean(p.free[|p.free| - 1], p.clear)])
  }

  /** A granted permit is forgotten: it now belongs to the buffer. */
  function Granted(p: Pool, sem: S.Sys): Pool {
    if |sem.held| > 0 then CheckOut(p.(sem := S.Apply(sem, S.Forget(|sem.held| - 1)))) else p.(sem := sem)
  }

  datatype Action =
    | NewAcquire(f: nat)
    | Poll(f: nat, waker: nat)
    | DropFuture(f: nat)
    | TryAcquire
    | Use(i: nat, len: nat, data: seq<nat>)
    | Return(i: nat)

  predicate Enabled(p: Pool, a: Action) {
    match a
    case NewAcquire(f) => f !in p.sem.futs
    case Poll(f, _) => f in p.sem.futs && f in p.sem.want
    case DropFuture(f) => f in p.sem.futs
    case TryAcquire => true
    case Use(i, _, data) => i < |p.out| && |data| == |p.out[i].data|
    case Return(i) => i < |p.out|
  }

  function Apply(p: Pool, a: Action): Pool
    requires Enabled(p, a)
  {
    match a
    case NewAcquire(f) => p.(sem := S.Apply(p.sem, S.NewAcquire(f, 1)))
    case Poll(f, waker) => Granted(p, S.Apply(p.sem, S.Poll(f, waker)))
    case DropFuture(f) => p.(sem := S.Apply(p.sem, S.DropFuture(f)))
    case TryAcquire => Granted(p, S.Apply(p.sem, S.TryAcquireNow(1)))
    case Use(i, len, data) => p.(out := p.out[i := Buf(p.out[i].id, len, data)])
    case Return(i) =>
      p.(free := p.free + [p.out[i]], out := p.out[..i] + p.out[i + 1..], sem := S.Apply(p.sem, S.Add(1)))
  }

  /** `build`: as many buffers, all different, as permits. */
  ghost predicate Init(p: Pool) {
    && S.Init(p.sem) && |p.free| == p.sem.m.permits
    && p.out == [] && !p.failed
    && forall i :: 0 <= i < |p.free| ==> p.free[i].id == i
  }

  ghost predicate Next(p: Pool, p': Pool) {
    exists a :: Enabled(p, a) && p' == Apply(p, a)
  }

  ghost predicate IsRun(run: seq<Pool>) {
    && |run| > 0
    && Init(run[0])
    && forall i :: 0 <= i < |run| - 1 ==> Next(run[i], run[i + 1])
  }

  // ---------------- the invariant ----------------

  /** Every acquire asks for one permit, and none is ever held: it belongs to a buffer. */
  ghost predicate OneEach(s: S.Sys) {
    && s.held == []
    && forall f :: f in s.futs ==> f in s.want && s.want[f] == 1
  }

  ghost predicate Counts(p: Pool, count: nat) {
    && |p.free| == p.sem.m.permits
    && |p.free| + |p.out| == count < WORD
    && !p.failed
  }

  ghost predicate Inv(p: Pool, count: nat) {
    && S.Inv(p.sem) && T.FrontNotified(p.sem.m, p.sem.futs)
    && OneEach(p.sem) && Counts(p, count)
  }

  lemma QueuedNeedOne(s: S.Sys, i: nat)
    requires S.Inv(s) && OneEach(s) && i < |s.m.q|
    ensures s.m.q[i].need == 1
  {
    assert HasOwner(s.futs, s.m.q[i]);
    var f :| f in s.futs && s.futs[f].slot == Some(s.m.q[i]);
  }

  /** With requests of one permit a poll never demotes anybody, whatever waker it brings. */
  lemma NeverDemotes(s: S.Sys, f: nat, waker: nat)
    requires S.Inv(s) && OneEach(s) && f in s.futs
    ensures !T.Demotes(s, f, waker)
  {
    if |s.m.q| > 1 {
      QueuedNeedOne(s, 0);
      QueuedNeedOne(s, 1);
    }
  }

  /** One semaphore step of the pool keeps what the semaphore promises. */
  lemma SemStep(s: S.Sys, a: S.Action)
    requires S.Inv(s) && T.FrontNotified(s.m, s.futs) && OneEach(s) && S.Enabled(s, a)
    ensures var s' := S.Apply(s, a); S.Inv(s') && T.FrontNotified(s'.m, s'.futs)
  {
    S.StepInv(s, a);
    if a.Poll? {
      NeverDemotes(s, a.f, a.waker);
      T.PollKeepsFrontExactly(s, a.f, a.waker);
    } else {
      T.OtherStepsKeepFront(s, a);
    }
  }

  lemma GrantedInv(p: Pool, sem: S.Sys, count: nat)
    requires S.Inv(sem) && T.FrontNotified(sem.m, sem.futs)
    requires OneEach(sem.(held := [])) && Counts(p, count)
    requires (sem.held == [] && sem.m.permits == p.sem.m.permits)
             || (sem.held == [1] && sem.m.permits + 1 == p.sem.m.permits)
    ensures Inv(Granted(p, sem), count)
  {
    hide T.FrontNotified;
    if sem.held == [1] {
      S.StepInv(sem, S.Forget(0));
      assert S.Apply(sem, S.Forget(0)).m == sem.m && S.Apply(sem, S.Forget(0)).futs == sem.futs;
      assert sem.held[..0] + sem.held[1..] == [];
    }
  }

  lemma PollGrantsOne(s: S.Sys, f: nat, waker: nat)
    requires S.Inv(s) && OneEach(s) && f in s.futs && f in s.want
    ensures var s' := S.Apply(s, S.Poll(f, waker));
            && OneEach(s'.(held := []))
            && ((s'.held == [] && s'.m.permits == s.m.permits) || (s'.held == [1] && s'.m.permits + 1 == s.m.permits))
  {
    var (m, slot, ready, woken) := S.PollAcquire(s.m, s.futs[f].slot, 1, waker);
    WakeKeepsSlots(s.futs[f := Fut(slot, false)], woken);
    hide Register, Deregister, WakeOwner, S.WakeNext;
  }

  lemma DropKeepsOne(s: S.Sys, f: nat)
    requires OneEach(s) && f in s.futs
    ensures var s' := S.Apply(s, S.DropFuture(f)); OneEach(s') && s'.m.permits == s.m.permits
  {
    var (m, woken) := S.DropAcquire(s.m, s.futs[f].slot);
    WakeKeepsSlots(s.futs - {f}, woken);
    hide Deregister, WakeOwner, S.WakeNext;
  }

  lemma AddKeepsOne(s: S.Sys)
    requires OneEach(s) && s.m.permits + 1 < WORD
    ensures var s' := S.Apply(s, S.Add(1)); OneEach(s') && s'.m.permits == s.m.permits + 1 && s'.lost == s.lost
  {
    var (m, woken, _) := S.AddPermits(s.m, 1);
    WakeKeepsSlots(s.futs, woken);
    hide WakeOwner, S.WakeNext;
  }

  lemma StepInv(p: Pool, a: Action, count: nat)
    requires Inv(p, count) && Enabled(p, a)
    ensures Inv(Apply(p, a), count)
  {
    hide S.Inv, T.FrontNotified;
    match a {
      case NewAcquire(f) =>
        SemStep(p.sem, S.NewAcquire(f, 1));
      case Poll(f, waker) =>
        SemStep(p.sem, S.Poll(f, waker));
        PollGrantsOne(p.sem, f, waker);
        hide S.Apply;
        GrantedInv(p, S.Apply(p.sem, S.Poll(f, waker)), count);
      case DropFuture(f) =>
        SemStep(p.sem, S.DropFuture(f));
        DropKeepsOne(p.sem, f);
        hide S.Apply;
      case TryAcquire =>
        SemStep(p.sem, S.TryAcquireNow(1));
        GrantedInv(p, S.Apply(p.sem, S.TryAcquireNow(1)), count);
      case Use(i, len, data) =>
      case Return(i) =>
        SemStep(p.sem, S.Add(1));
        AddKeepsOne(p.sem);
        hide S.Apply;
    }
  }

  lemma {:induction false} RunInv(run: seq<Pool>, i: nat)
    requires IsRun(run) && i < |run|
    ensures Inv(run[i], |run[0].free|)
  {
    if i > 0 {
      RunInv(run, i - 1);
      hide Inv, Apply;
      assert Next(run[i - 1], run[i - 1 + 1]);
      var a :| Enabled(run[i - 1], a) && run[i] == Apply(run[i - 1], a);
      StepInv(run[i - 1], a, |run[0].free|);
    }
  }

  // ---------------- what every run guarantees ----------------

  /** Between operations the free list is as long as there are permits, and nothing is missing. */
  lemma FreeListMatchesPermits(run: seq<Pool>, i: nat)
    requires IsRun(run) && i < |run|
    ensures var p := run[i]; |p.free| == p.sem.m.permits && |p.free| + |p.out| == |run[0].free|
  {
    RunInv(run, i);
  }

  /** `check_out` never finds the free list empty, and returning a buffer never overflows the count. */
  lemma CheckOutNeverFails(run: seq<Pool>, i: nat)
    requires IsRun(run) && i < |run|
    ensures !run[i].failed
    ensures run[i].out != [] ==> !S.AddPermits(run[i].sem.m, 1).2
  {
    RunInv(run, i);
  }

  /** While a buffer is free, the first waiter has been woken since its last poll, whatever wakers are used. */
  lemma FirstWaiterWoken(run: seq<Pool>, i: nat, f: nat)
    requires IsRun(run) && i < |run|
    requires run[i].free != [] && run[i].sem.m.q != []
    requires f in run[i].sem.futs && run[i].sem.futs[f].slot == Some(run[i].sem.m.q[0])
    ensures run[i].sem.futs[f].notified
  {
    RunInv(run, i);
    QueuedNeedOne(run[i].sem, 0);
  }

  // ---------------- the buffers themselves ----------------

  function IdSeq(s: seq<Buf>): seq<nat> {
    seq(|s|, i requires 0 <= i < |s| => s[i].id)
  }

  function Ids(s: seq<Buf>): multiset<nat> {
    multiset(IdSeq(s))
  }

  lemma IdsConcat(s: seq<Buf>, t: seq<Buf>)
    ensures Ids(s + t) == Ids(s) + Ids(t)
  {
    assert IdSeq(s + t) == IdSeq(s) + IdSeq(t);
  }

  lemma IdsSingle(b: Buf)
    ensures Ids([b]) == multiset{b.id}
  {
    assert IdSeq([b]) == [b.id];
  }

  lemma IdsSplit(s: seq<Buf>, i: nat)
    requires i < |s|
    ensures Ids(s) == Ids(s[..i]) + multiset{s[i].id} + Ids(s[i + 1..])
    ensures Ids(s[..i] + s[i + 1..]) == Ids(s[..i]) + Ids(s[i + 1..])
  {
    hide Ids;
    assert s == (s[..i] + [s[i]]) + s[i + 1..];
    IdsConcat(s[..i] + [s[i]], s[i + 1..]);
    IdsConcat(s[..i], [s[i]]);
    IdsSingle(s[i]);
    IdsConcat(s[..i], s[i + 1..]);
  }

  lemma IdsAppend(s: seq<Buf>, b: Buf)
    ensures Ids(s + [b]) == Ids(s) + multiset{b.id}
  {
    hide Ids;
    IdsConcat(s, [b]);
    IdsSingle(b);
  }

  lemma CheckOutKeepsIds(p: Pool)
    ensures var p' := CheckOut(p); Ids(p'.free) + Ids(p'.out) == Ids(p.free) + Ids(p.out)
  {
    if p.free != [] {
      var k := |p.free| - 1;
      IdsSplit(p.free, k);
      assert p.free[k + 1..] == [] && Ids([]) == multiset{};
      hide Ids;
      IdsAppend(p.out, Clean(p.free[k], p.clear));
    }
  }

  lemma StepKeepsIds(p: Pool, a: Action)
    requires Enabled(p, a)
    ensures var p' := Apply(p, a); Ids(p'.free) + Ids(p'.out) == Ids(p.free) + Ids(p.out)
  {
    hide S.Apply, Ids, CheckOut;
    match a {
      case Poll(f, waker) =>
        var sem := S.Apply(p.sem, S.Poll(f, waker));
        if |sem.held| > 0 {
          CheckOutKeepsIds(p.(sem := S.Apply(sem, S.Forget(|sem.held| - 1))));
        }
      case TryAcquire =>
        var sem := S.Apply(p.sem, S.TryAcquireNow(1));
        if |sem.held| > 0 {
          CheckOutKeepsIds(p.(sem := S.Apply(sem, S.Forget(|sem.held| - 1))));
        }
      case Use(i, len, data) =>
        var b := Buf(p.out[i].id, len, data);
        IdsSplit(p.out, i);
        IdsSplit(p.out[i := b], i);
        assert p.out[i := b][..i] == p.out[..i] && p.out[i := b][i + 1..] == p.out[i + 1..];
      case Return(i) =>
        IdsSplit(p.out, i);
        IdsAppend(p.free, p.out[i]);
      case NewAcquire(_) =>
      case DropFuture(_) =>
    }
  }

  /** No buffer is lost, duplicated or invented. */
  lemma {:induction false} BuffersConserved(run: seq<Pool>, i: nat)
    requires IsRun(run) && i < |run|
    ensures Ids(run[i].free) + Ids(run[i].out) == Ids(run[0].free)
  {
    if i > 0 {
      BuffersConserved(run, i - 1);
      hide Apply, Ids;
      assert Next(run[i - 1], run[i - 1 + 1]);
      var a :| Enabled(run[i - 1], a) && run[i] == Apply(run[i - 1], a);
      StepKeepsIds(run[i - 1], a);
    }
  }

  /** A buffer that changes hands arrives empty, and zeroed throughout unless the pool was told not to clear. */
  lemma ArrivesClean(p: Pool, a: Action)
    requires Enabled(p, a) && |Apply(p, a).out| > |p.out|
    ensures var p' := Apply(p, a); var b := p'.out[|p.out|];
            && p'.out == p.out + [b] && b.len == 0
            && (p.clear ==> forall i :: 0 <= i < |b.data| ==> b.data[i] == 0)
            && p.free != [] && b.id == p.free[|p.free| - 1].id && |b.data| == |p.free[|p.free| - 1].data|
            && (!p.clear ==> b.data == p.free[|p.free| - 1].data)
  {
    hide S.Apply;
  }

  /** A buffer is handed out exactly when one is free and, for an awaited one, nobody is ahead. */
  lemma HandsOutExactly(run: seq<Pool>, i: nat, f: nat, waker: nat)
    requires IsRun(run) && i < |run|
    ensures var p := run[i];
            && (|Apply(p, TryAcquire).out| == |p.out| + 1 <==> p.free != [])
            && (Enabled(p, Poll(f, waker)) ==>
                  (|Apply(p, Poll(f, waker)).out| == |p.out| + 1 <==>
                     p.free != [] && (p.sem.m.q == [] || p.sem.futs[f].slot == Some(p.sem.m.q[0]))))
  {
    RunInv(run, i);
    var p := run[i];
    if Enabled(p, Poll(f, waker)) {
      PollGrantsExactly(p.sem, f, waker);
    }
    hide S.Inv, T.FrontNotified, WakeOwner;
  }

  lemma PollGrantsExactly(s: S.Sys, f: nat, waker: nat)
    requires S.Inv(s) && OneEach(s) && f in s.futs && f in s.want
    ensures |S.Apply(s, S.Poll(f, waker)).held| > 0 <==>
              s.m.permits > 0 && (s.m.q == [] || s.futs[f].slot == Some(s.m.q[0]))
  {
    S.FrontIdFresh(s);
    if s.m.q != [] && OwnsId(s.futs[f], s.m.q[0].id) {
      S.OwnerIsFront(s, f);
    }
    if !S.CanAcquireFair(s.m, 1, S.IdOf(s.futs[f].slot)) {
      S.RecheckNeverGrants(s.m, s.futs[f].slot, 1, waker);
    }
    hide S.Inv, Register, Deregister, WakeOwner, S.WakeNext;
  }
}

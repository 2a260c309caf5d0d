/** The pool as the object that its operations update: a free list beside the semaphore. */
module LocalBufferPoolMemory {
  import opened Wrappers
  import opened WordArithmetic
  import opened Waiters
  import opened LocalSemaphoreMemory
  import S = LocalSemaphore
  import P = LocalBufferPool

  type Buf = P.Buf

  class PoolCell {
    var free: seq<Buf>
    const sem: SemaphoreCell
    const clear: bool
    const size: nat
    ghost var out: nat

    /** Between operations: one permit for each free buffer, and `out` buffers in borrowers' hands. */
    ghost predicate Valid()
      reads this, sem, sem.waiters, sem.waiters.buf
    {
      sem.Valid() && |free| == sem.permits && |free| + out == size < WORD
    }

    constructor Build(count: nat, length: nat, clearOnCheckout: bool)
      requires count < WORD
      ensures Valid() && |free| == count && out == 0 && clear == clearOnCheckout
      ensures forall i :: 0 <= i < count ==> free[i] == P.Buf(i, 0, P.Zeros(length))
      ensures sem.View() == S.Sem(count, [], 0)
    {
      var buffers := [];
      var k := 0;
      while k < count
        invariant 0 <= k <= count && |buffers| == k
        invariant forall i :: 0 <= i < k ==> buffers[i] == P.Buf(i, 0, P.Zeros(length))
      {
        buffers := buffers + [P.Buf(k, 0, P.Zeros(length))];
        k := k + 1;
      }
      free, clear, size, out := buffers, clearOnCheckout, count, 0;
      sem := new SemaphoreCell(count);
    }

    /** A permit has just been taken, so there is a buffer for it. */
    method CheckOut() returns (b: Buf)
      requires sem.Valid() && |free| == sem.permits + 1 && |free| + out == size < WORD
      modifies this
      ensures Valid() && out == old(out) + 1 && free == old(free)[..|old(free)| - 1]
      ensures b == P.Clean(old(free)[|old(free)| - 1], clear)
    {
      b := P.Clean(free[|free| - 1], clear);
      free := free[..|free| - 1];
      out := out + 1;
    }

    method TryAcquire() returns (b: Option<Buf>)
      requires Valid()
      modifies this, sem
      ensures Valid()
      ensures b.Some? <==> old(free) != []
      ensures b.Some? ==> b.value == P.Clean(old(free)[|old(free)| - 1], clear) && free == old(free)[..|old(free)| - 1]
      ensures b.None? ==> free == old(free)
      ensures sem.View().q == old(sem.View()).q
    {
      var ok := sem.Take(1);
      if !ok {
        return None;
      }
      var buf := CheckOut();
      b := Some(buf);
    }

    /** One poll of `acquire`: the grant and the check-out happen in one go. */
    method PollAcquire(fut: AcquireFuture, waker: nat) returns (b: Option<Buf>, woken: Option<Entry>)
      requires Valid() && fut.sem == sem && fut.n == 1
      modifies this, fut, sem, sem.waiters, sem.waiters.buf
      ensures Valid()
      ensures (sem.View(), fut.registered, b.Some?, woken) == S.PollAcquire(old(sem.View()), old(fut.registered), 1, waker)
      ensures b.Some? ==> old(free) != [] && b.value == P.Clean(old(free)[|old(free)| - 1], clear)
                          && free == old(free)[..|old(free)| - 1]
      ensures b.None? ==> free == old(free)
    {
      var ready;
      ready, woken := fut.Poll(waker);
      if !ready {
        return None, woken;
      }
      var buf := CheckOut();
      b := Some(buf);
    }

    /** Dropping a pooled buffer, of which there is one: the buffer first, then the permit, which never overflows. */
    method Return(b: Buf) returns (woken: Option<Entry>)
      requires Valid() && out > 0
      modifies this, sem
      ensures Valid() && free == old(free) + [b] && out == old(out) - 1
      ensures (sem.View(), woken, false) == S.AddPermits(old(sem.View()), 1)
      ensures sem.View().q != [] && sem.View().q[0].need <= sem.permits ==> woken == Some(sem.View().q[0])
    {
      free := free + [b];
      out := out - 1;
      var panics;
      woken, panics := sem.Return(1);
      assert !panics;
    }
  }
}

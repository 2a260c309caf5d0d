/** The semaphore and its future as the objects that the operations update. */
module LocalSemaphoreMemory {
  import opened Wrappers
  import opened WordArithmetic
  import opened Waiters
  import opened WaitQueue
  import opened LocalSemaphore
  import Q = Queue

  class SemaphoreCell {
    var permits: nat
    const waiters: Q.Queue<Entry>
    var nextId: nat

    ghost predicate Valid()
      reads this, waiters, waiters.buf
    {
      waiters.Valid()
    }

    ghost function View(): Sem
      requires Valid()
      reads this, waiters, waiters.buf
    {
      Sem(permits, waiters.Contents(), nextId)
    }

    constructor (count: nat)
      ensures Valid() && fresh(waiters) && fresh(waiters.buf) && View() == Sem(count, [], 0)
    {
      permits, nextId := count, 0;
      waiters := new Q.Queue(8);
    }

    method Take(n: nat) returns (ok: bool)
      requires Valid()
      modifies this
      ensures Valid() && (View(), ok) == TryAcquire(old(View()), n)
    {
      ok := permits >= n;
      if ok {
        permits := permits - n;
      }
    }

    /** Whether a request for `n` by token `id` may proceed; only reads. */
    method MayProceed(n: nat, id: Option<nat>) returns (ok: bool)
      requires Valid()
      ensures ok <==> CanAcquireFair(View(), n, id)
    {
      if permits < n {
        return false;
      }
      var all := waiters.Iterate();
      ok := all == [] || id == Some(all[0].id);
    }

    /** The front waiter to be woken, if its request fits; nobody is popped. */
    method FrontToWake() returns (woken: Option<Entry>)
      requires Valid()
      ensures woken == WakeNext(View())
    {
      var all := waiters.Iterate();
      if all == [] || permits < all[0].need {
        return None;
      }
      woken := Some(all[0]);
    }

    method Return(n: nat) returns (woken: Option<Entry>, panics: bool)
      requires Valid()
      modifies this
      ensures Valid() && (View(), woken, panics) == AddPermits(old(View()), n)
    {
      if permits + n >= WORD {
        return None, true;
      }
      permits, panics := permits + n, false;
      woken := None;
      var queued := waiters.Length();
      if queued > 0 {
        woken := FrontToWake();
      }
    }
  }

  class AcquireFuture {
    const sem: SemaphoreCell
    const n: nat
    var registered: Option<Entry>

    constructor (s: SemaphoreCell, count: nat)
      ensures sem == s && n == count && registered == None
    {
      sem, n, registered := s, count, None;
    }

    method Poll(waker: nat) returns (ready: bool, woken: Option<Entry>)
      requires sem.Valid()
      modifies this, sem, sem.waiters, sem.waiters.buf
      ensures sem.Valid()
      ensures (sem.View(), registered, ready, woken) == PollAcquire(old(sem.View()), old(registered), n, waker)
    {
      hide Register, Deregister, WakeNext;
      ready := sem.MayProceed(n, IdOf(registered));
      if ready {
        sem.permits := sem.permits - n;
        DeregisterIn(sem.waiters, registered);
        registered := None;
        woken := sem.FrontToWake();
        return;
      }
      sem.nextId, registered := RegisterIn(sem.waiters, sem.nextId, registered, n, waker);
      ready := sem.MayProceed(n, IdOf(registered));
      woken := None;
      if ready {
        sem.permits := sem.permits - n;
        DeregisterIn(sem.waiters, registered);
        registered := None;
        woken := sem.FrontToWake();
      }
    }

    method Drop() returns (woken: Option<Entry>)
      requires sem.Valid()
      modifies this, sem.waiters, sem.waiters.buf
      ensures sem.Valid() && registered == None
      ensures (sem.View(), woken) == DropAcquire(old(sem.View()), old(registered))
    {
      hide Register, Deregister, WakeNext;
      woken := None;
      if registered.Some? {
        DeregisterIn(sem.waiters, registered);
        registered := None;
        woken := sem.FrontToWake();
      }
    }
  }
}

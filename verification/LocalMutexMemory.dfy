/** The mutex and its lock future as the objects that the operations update. */
module LocalMutexMemory {
  import opened Wrappers
  import opened Waiters
  import opened WaitQueue
  import opened LocalMutex
  import Q = Queue

  class MutexCell {
    var locked: bool
    const waiters: Q.Queue<Entry>
    var nextId: nat

    ghost predicate Valid()
      reads this, waiters, waiters.buf
    {
      waiters.Valid()
    }

    ghost function View(): Mutex
      requires Valid()
      reads this, waiters, waiters.buf
    {
      Mutex(locked, waiters.Contents(), nextId)
    }

    constructor ()
      ensures Valid() && fresh(waiters) && fresh(waiters.buf) && View() == Mutex(false, [], 0)
    {
      locked, nextId := false, 0;
      waiters := new Q.Queue(8);
    }

    method Lock() returns (ok: bool)
      requires Valid()
      modifies this
      ensures Valid() && (View(), ok) == TryLock(old(View()))
    {
      ok := !locked;
      locked := true;
    }

    method Pass() returns (woken: Option<Entry>)
      requires Valid()
      modifies this, waiters, waiters.buf
      ensures Valid() && (View(), woken) == WakeNext(old(View()))
    {
      if locked {
        return None;
      }
      woken := waiters.PopFront();
    }

    method Release() returns (woken: Option<Entry>)
      requires Valid()
      modifies this, waiters, waiters.buf
      ensures Valid() && (View(), woken) == Unlock(old(View()))
    {
      locked := false;
      woken := Pass();
    }
  }

  class LockFuture {
    const mutex: MutexCell
    var registered: Option<Entry>

    constructor (m: MutexCell)
      ensures mutex == m && registered == None
    {
      mutex, registered := m, None;
    }

    method Poll(waker: nat) returns (ready: bool)
      requires mutex.Valid()
      modifies this, mutex, mutex.waiters, mutex.waiters.buf
      ensures mutex.Valid()
      ensures (mutex.View(), registered, ready) == PollLock(old(mutex.View()), old(registered), waker)
    {
      hide Register, Deregister;
      ready := mutex.Lock();
      if ready {
        DeregisterIn(mutex.waiters, registered);
        registered := None;
        return;
      }
      mutex.nextId, registered := RegisterIn(mutex.waiters, mutex.nextId, registered, 1, waker);
      ready := mutex.Lock();
      if ready {
        assert false;    // nothing ran since the first look
      }
    }

    /** Cancellation. */
    method Drop() returns (woken: Option<Entry>)
      requires mutex.Valid()
      modifies this, mutex, mutex.waiters, mutex.waiters.buf
      ensures mutex.Valid() && registered == None
      ensures (mutex.View(), woken) == DropLock(old(mutex.View()), old(registered))
    {
      hide Register, Deregister;
      woken := None;
      if registered.Some? {
        DeregisterIn(mutex.waiters, registered);
        registered := None;
        woken := mutex.Pass();
      }
    }
  }
}

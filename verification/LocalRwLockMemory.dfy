/** The reader-writer lock and its two futures as the objects that the operations update. */
module LocalRwLockMemory {
  import opened Wrappers
  import opened Waiters
  import opened WaitQueue
  import opened LocalRwLock
  import Q = Queue

  class RwLockCell {
    var readers: nat
    var writer: bool
    const readWaiters: Q.Queue<Entry>
    const writeWaiters: Q.Queue<Entry>
    var nextId: nat

    ghost predicate Valid()
      reads this, readWaiters, readWaiters.buf, writeWaiters, writeWaiters.buf
    {
      && readWaiters.Valid() && writeWaiters.Valid()
      && readWaiters != writeWaiters && readWaiters.buf != writeWaiters.buf
    }

    ghost function View(): RwLock
      requires Valid()
      reads this, readWaiters, readWaiters.buf, writeWaiters, writeWaiters.buf
    {
      RwLock(readers, writer, readWaiters.Contents(), writeWaiters.Contents(), nextId)
    }

    constructor ()
      ensures Valid() && View() == RwLock(0, false, [], [], 0)
    {
      readers, writer, nextId := 0, false, 0;
      readWaiters := new Q.Queue(8);
      writeWaiters := new Q.Queue(8);
    }

    method Read() returns (ok: bool)
      requires Valid()
      modifies this
      ensures Valid() && (View(), ok) == TryRead(old(View()))
    {
      ok := !writer;
      if ok {
        readers := readers + 1;
      }
    }

    method ReadFair() returns (ok: bool)
      requires Valid()
      modifies this
      ensures Valid() && (View(), ok) == TryReadFair(old(View()))
    {
      var queued := writeWaiters.Length();
      ok := !writer && queued == 0;
      if ok {
        readers := readers + 1;
      }
    }

    method Write() returns (ok: bool)
      requires Valid()
      modifies this
      ensures Valid() && (View(), ok) == TryWrite(old(View()))
    {
      ok := readers == 0 && !writer;
      if ok {
        writer := true;
      }
    }

    /** Wake one writer, or else drain the readers one by one. */
    method Pass() returns (w: Option<Entry>, rs: seq<Entry>)
      requires Valid()
      modifies readWaiters, writeWaiters
      ensures Valid() && (View(), w, rs) == WakeNext(old(View()))
    {
      w, rs := None, [];
      if writer || readers > 0 {
        return;
      }
      w := writeWaiters.PopFront();
      if w.Some? {
        return;
      }
      rs := Drain(readWaiters);
    }

    method EndRead() returns (w: Option<Entry>, rs: seq<Entry>)
      requires Valid() && readers > 0
      modifies this, readWaiters, writeWaiters
      ensures Valid() && (View(), w, rs) == ReleaseRead(old(View()))
    {
      readers := readers - 1;
      w, rs := Pass();
    }

    method EndWrite() returns (w: Option<Entry>, rs: seq<Entry>)
      requires Valid()
      modifies this, readWaiters, writeWaiters
      ensures Valid() && (View(), w, rs) == ReleaseWrite(old(View()))
    {
      writer := false;
      w, rs := Pass();
    }
  }

  class ReadFuture {
    const lock: RwLockCell
    var registered: Option<Entry>

    constructor (l: RwLockCell)
      ensures lock == l && registered == None
    {
      lock, registered := l, None;
    }

    method Poll(waker: nat) returns (ready: bool)
      requires lock.Valid()
      modifies this, lock, lock.readWaiters, lock.readWaiters.buf
      ensures lock.Valid()
      ensures (lock.View(), registered, ready) == PollRead(old(lock.View()), old(registered), waker)
    {
      hide Register, Deregister;
      ready := lock.ReadFair();
      if ready {
        DeregisterIn(lock.readWaiters, registered);
        registered := None;
        return;
      }
      lock.nextId, registered := RegisterIn(lock.readWaiters, lock.nextId, registered, 1, waker);
      ready := lock.ReadFair();
      if ready {
        assert false;    // nothing ran since the first look
      }
    }

    method Drop() returns (w: Option<Entry>, rs: seq<Entry>)
      requires lock.Valid()
      modifies this, lock.readWaiters, lock.readWaiters.buf, lock.writeWaiters
      ensures lock.Valid() && registered == None
      ensures (lock.View(), w, rs) == DropRead(old(lock.View()), old(registered))
    {
      hide Register, Deregister;
      w, rs := None, [];
      if registered.Some? {
        DeregisterIn(lock.readWaiters, registered);
        registered := None;
        w, rs := lock.Pass();
      }
    }
  }

  class WriteFuture {
    const lock: RwLockCell
    var registered: Option<Entry>

    constructor (l: RwLockCell)
      ensures lock == l && registered == None
    {
      lock, registered := l, None;
    }

    method Poll(waker: nat) returns (ready: bool)
      requires lock.Valid()
      modifies this, lock, lock.writeWaiters, lock.writeWaiters.buf
      ensures lock.Valid()
      ensures (lock.View(), registered, ready) == PollWrite(old(lock.View()), old(registered), waker)
    {
      hide Register, Deregister;
      ready := lock.Write();
      if ready {
        DeregisterIn(lock.writeWaiters, registered);
        registered := None;
        return;
      }
      lock.nextId, registered := RegisterIn(lock.writeWaiters, lock.nextId, registered, 1, waker);
      ready := lock.Write();
      if ready {
        assert false;    // nothing ran since the first look
      }
    }

    method Drop() returns (w: Option<Entry>, rs: seq<Entry>)
      requires lock.Valid()
      modifies this, lock.readWaiters, lock.writeWaiters, lock.writeWaiters.buf
      ensures lock.Valid() && registered == None
      ensures (lock.View(), w, rs) == DropWrite(old(lock.View()), old(registered))
    {
      hide Register, Deregister;
      w, rs := None, [];
      if registered.Some? {
        DeregisterIn(lock.writeWaiters, registered);
        registered := None;
        w, rs := lock.Pass();
      }
    }
  }
}

/** The single-threaded reader-writer lock: write-preferring, with opportunistic `try_read`. */
module LocalRwLock {
  import opened Wrappers
  import opened Waiters

  datatype RwLock = RwLock(readers: nat, writer: bool, rq: seq<Entry>, wq: seq<Entry>, nextId: nat)

  predicate Free(l: RwLock) {
    l.readers == 0 && !l.writer
  }

  function TryRead(l: RwLock): (RwLock, bool) {
    if !l.writer then (l.(readers := l.readers + 1), true) else (l, false)
  }

  function TryReadFair(l: RwLock): (RwLock, bool) {
    if !l.writer && l.wq == [] then (l.(readers := l.readers + 1), true) else (l, false)
  }

  function TryWrite(l: RwLock): (RwLock, bool) {
    if l.readers == 0 && !l.writer then (l.(writer := true), true) else (l, false)
  }

  /** Once the lock is free: wake one writer, or else drain the waiting readers. */
  function WakeNext(l: RwLock): (RwLock, Option<Entry>, seq<Entry>) {
    if l.writer || l.readers > 0 then (l, None, [])
    else if l.wq != [] then (l.(wq := l.wq[1..]), Some(l.wq[0]), [])
    else (l.(rq := []), None, l.rq)
  }

  function ReleaseRead(l: RwLock): (RwLock, Option<Entry>, seq<Entry>)
    requires l.readers > 0
  {
    WakeNext(l.(readers := l.readers - 1))
  }

  function ReleaseWrite(l: RwLock): (RwLock, Option<Entry>, seq<Entry>) {
    WakeNext(l.(writer := false))
  }

  function PollRead(l: RwLock, slot: Option<Entry>, waker: nat): (RwLock, Option<Entry>, bool) {
    var (l1, ok) := TryReadFair(l);
    if ok then (l1.(rq := Deregister(l1.rq, slot)), None, true)
    else
      var (rq, nextId, slot2) := Register(l.rq, l.nextId, slot, 1, waker);
      var (l2, again) := TryReadFair(l.(rq := rq, nextId := nextId));
      if again then (l2.(rq := Deregister(l2.rq, slot2)), None, true) else (l2, slot2, false)
  }

  function PollWrite(l: RwLock, slot: Option<Entry>, waker: nat): (RwLock, Option<Entry>, bool) {
    var (l1, ok) := TryWrite(l);
    if ok then (l1.(wq := Deregister(l1.wq, slot)), None, true)
    else
      var (wq, nextId, slot2) := Register(l.wq, l.nextId, slot, 1, waker);
      var (l2, again) := TryWrite(l.(wq := wq, nextId := nextId));
      if again then (l2.(wq := Deregister(l2.wq, slot2)), None, true) else (l2, slot2, false)
  }

  function DropRead(l: RwLock, slot: Option<Entry>): (RwLock, Option<Entry>, seq<Entry>) {
    if slot.None? then (l, None, []) else WakeNext(l.(rq := Deregister(l.rq, slot)))
  }

  function DropWrite(l: RwLock, slot: Option<Entry>): (RwLock, Option<Entry>, seq<Entry>) {
    if slot.None? then (l, None, []) else WakeNext(l.(wq := Deregister(l.wq, slot)))
  }

  // ---------------- runs ----------------

  /** The lock, its live read and write futures, and the live guards of each kind. */
  datatype Sys = Sys(l: RwLock, rs: map<nat, Fut>, ws: map<nat, Fut>, readGuards: nat, writeGuards: nat)

  datatype Action =
    | NewRead(f: nat)
    | NewWrite(f: nat)
    | PollReader(f: nat, waker: nat)
    | PollWriter(f: nat, waker: nat)
    | DropReader(f: nat)
    | DropWriter(f: nat)
    | TryReadNow
    | TryWriteNow
    | DropReadGuard
    | DropWriteGuard

  predicate Enabled(s: Sys, a: Action) {
    match a
    case NewRead(f) => f !in s.rs
    case NewWrite(f) => f !in s.ws
    case PollReader(f, _) => f in s.rs
    case PollWriter(f, _) => f in s.ws
    case DropReader(f) => f in s.rs
    case DropWriter(f) => f in s.ws
    case TryReadNow => true
    case TryWriteNow => true
    case DropReadGuard => s.readGuards > 0 && s.l.readers > 0
    case DropWriteGuard => s.writeGuards > 0
  }

  function Woken(s: Sys, l: RwLock, w: Option<Entry>, rs: seq<Entry>): Sys {
    s.(l := l, ws := WakeOwner(s.ws, w), rs := WakeEach(s.rs, rs))
  }

  function Apply(s: Sys, a: Action): Sys
    requires Enabled(s, a)
  {
    match a
    case NewRead(f) => s.(rs := s.rs[f := Fut(None, false)])
    case NewWrite(f) => s.(ws := s.ws[f := Fut(None, false)])
    case PollReader(f, waker) =>
      var (l, slot, ready) := PollRead(s.l, s.rs[f].slot, waker);
      s.(l := l, rs := s.rs[f := Fut(slot, false)], readGuards := if ready then s.readGuards + 1 else s.readGuards)
    case PollWriter(f, waker) =>
      var (l, slot, ready) := PollWrite(s.l, s.ws[f].slot, waker);
      s.(l := l, ws := s.ws[f := Fut(slot, false)], writeGuards := if ready then s.writeGuards + 1 else s.writeGuards)
    case DropReader(f) =>
      var (l, w, rs) := DropRead(s.l, s.rs[f].slot);
      Woken(s.(rs := s.rs - {f}), l, w, rs)
    case DropWriter(f) =>
      var (l, w, rs) := DropWrite(s.l, s.ws[f].slot);
      Woken(s.(ws := s.ws - {f}), l, w, rs)
    case TryReadNow =>
      var (l, ok) := TryRead(s.l);
      s.(l := l, readGuards := if ok then s.readGuards + 1 else s.readGuards)
    case TryWriteNow =>
      var (l, ok) := TryWrite(s.l);
      s.(l := l, writeGuards := if ok then s.writeGuards + 1 else s.writeGuards)
    case DropReadGuard =>
      var (l, w, rs) := ReleaseRead(s.l);
      Woken(s.(readGuards := s.readGuards - 1), l, w, rs)
    case DropWriteGuard =>
      var (l, w, rs) := ReleaseWrite(s.l);
      Woken(s.(writeGuards := s.writeGuards - 1), l, w, rs)
  }

  ghost predicate Init(s: Sys) {
    s == Sys(RwLock(0, false, [], [], 0), map[], map[], 0, 0)
  }

  ghost predicate Next(s: Sys, s': Sys) {
    exists a :: Enabled(s, a) && s' == Apply(s, a)
  }

  ghost predicate IsRun(run: seq<Sys>) {
    && |run| > 0
    && Init(run[0])
    && forall i :: 0 <= i < |run| - 1 ==> Next(run[i], run[i + 1])
  }

  // ---------------- the invariant ----------------

  ghost predicate Guards(s: Sys) {
    && s.l.readers == s.readGuards
    && s.writeGuards == (if s.l.writer then 1 else 0)
    && (s.l.writer ==> s.l.readers == 0)
  }

  ghost predicate Queues(s: Sys) {
    && Bound(s.l.rq, s.l.nextId, s.rs) && Torch(s.l.rq, s.rs)
    && Bound(s.l.wq, s.l.nextId, s.ws) && Torch(s.l.wq, s.ws)
    && Apart(s.rs, s.ws)
  }

  ghost predicate Passed(s: Sys) {
    Free(s.l) && (s.l.rq != [] || s.l.wq != []) ==> SomeWoken(s.ws)
  }

  ghost predicate Inv(s: Sys) {
    Guards(s) && Queues(s) && Passed(s)
  }

  lemma WakeNextInv(s: Sys)
    requires Guards(s) && Queues(s)
    ensures var (l, w, rs) := WakeNext(s.l); Inv(Woken(s, l, w, rs))
  {
    hide Bound, Torch, Apart, WakeOwner, WakeEach, SomeWoken;
    var (l, w, rs) := WakeNext(s.l);
    WakeNobody(s.ws);
    WakeNone(s.rs);
    if Free(s.l) {
      if s.l.wq != [] {
        PopBound(s.l.wq, s.l.nextId, s.ws);
        PopTorch(s.l.wq, s.l.nextId, s.ws);
        ApartAfterWake(s.rs, s.ws, w, []);
      } else {
        DrainKeeps(s.l.rq, s.l.nextId, s.rs);
        ApartAfterWake(s.rs, s.ws, None, s.l.rq);
      }
    }
  }

  lemma WakeNone(futs: map<nat, Fut>)
    ensures WakeEach(futs, []) == futs
  {
  }

  lemma ApartAfterWake(rs: map<nat, Fut>, ws: map<nat, Fut>, w: Option<Entry>, q: seq<Entry>)
    requires Apart(rs, ws)
    ensures Apart(WakeEach(rs, q), WakeOwner(ws, w))
  {
    WakeEachSlots(rs, q);
    var ws' := WakeOwner(ws, w);
    assert forall g :: g in ws' <==> g in ws;
    assert forall g :: g in ws ==> ws'[g].slot == ws[g].slot;
  }

  lemma ApartAfterClear(rs: map<nat, Fut>, ws: map<nat, Fut>, f: nat)
    requires Apart(rs, ws)
    ensures Apart(rs[f := Fut(None, false)], ws) && Apart(rs, ws[f := Fut(None, false)])
    ensures Apart(rs - {f}, ws) && Apart(rs, ws - {f})
  {
  }

  /** A fresh token belongs to nobody else. */
  lemma ApartAfterRegister(rq: seq<Entry>, wq: seq<Entry>, nextId: nat, rs: map<nat, Fut>, ws: map<nat, Fut>, f: nat, waker: nat)
    requires Bound(rq, nextId, rs) && Bound(wq, nextId, ws) && Apart(rs, ws)
    ensures f in rs ==> Apart(rs[f := Fut(Register(rq, nextId, rs[f].slot, 1, waker).2, false)], ws)
    ensures f in ws ==> Apart(rs, ws[f := Fut(Register(wq, nextId, ws[f].slot, 1, waker).2, false)])
  {
    hide Queued, Others;
    if f in rs {
      var slot := Register(rq, nextId, rs[f].slot, 1, waker).2;
      assert slot.value.id == if rs[f].slot.Some? then rs[f].slot.value.id else nextId;
    }
    if f in ws {
      var slot := Register(wq, nextId, ws[f].slot, 1, waker).2;
      assert slot.value.id == if ws[f].slot.Some? then ws[f].slot.value.id else nextId;
    }
  }

  lemma PollReaderInv(s: Sys, f: nat, waker: nat)
    requires Inv(s) && f in s.rs
    ensures Inv(Apply(s, PollReader(f, waker)))
  {
    hide Bound, Torch, Apart, Register, Deregister;
    var l := s.l;
    if TryReadFair(l).1 {
      DeregisterBound(l.rq, l.nextId, s.rs, f);
      DeregisterTorch(l.rq, l.nextId, s.rs, f);
      ApartAfterClear(s.rs, s.ws, f);
    } else {
      RegisterBound(l.rq, l.nextId, s.rs, f, 1, waker, false);
      RegisterTorch(l.rq, l.nextId, s.rs, f, 1, waker);
      var (_, nextId, _) := Register(l.rq, l.nextId, s.rs[f].slot, 1, waker);
      BoundGrows(l.wq, l.nextId, nextId, s.ws);
      ApartAfterRegister(l.rq, l.wq, l.nextId, s.rs, s.ws, f, waker);
    }
  }

  lemma PollWriterInv(s: Sys, f: nat, waker: nat)
    requires Inv(s) && f in s.ws
    ensures Inv(Apply(s, PollWriter(f, waker)))
  {
    hide Bound, Torch, Apart, Register, Deregister;
    var l := s.l;
    if Free(l) {
      DeregisterBound(l.wq, l.nextId, s.ws, f);
      DeregisterTorch(l.wq, l.nextId, s.ws, f);
      ApartAfterClear(s.rs, s.ws, f);
    } else {
      RegisterBound(l.wq, l.nextId, s.ws, f, 1, waker, false);
      RegisterTorch(l.wq, l.nextId, s.ws, f, 1, waker);
      var (_, nextId, _) := Register(l.wq, l.nextId, s.ws[f].slot, 1, waker);
      BoundGrows(l.rq, l.nextId, nextId, s.rs);
      ApartAfterRegister(l.rq, l.wq, l.nextId, s.rs, s.ws, f, waker);
    }
  }

  lemma DropReaderInv(s: Sys, f: nat)
    requires Inv(s) && f in s.rs
    ensures Inv(Apply(s, DropReader(f)))
  {
    hide Bound, Torch, Apart, Deregister, WakeOwner, WakeEach, WakeNext;
    var l := s.l;
    DeregisterBound(l.rq, l.nextId, s.rs, f);
    DeregisterTorch(l.rq, l.nextId, s.rs, f);
    ApartAfterClear(s.rs, s.ws, f);
    if s.rs[f].slot.Some? {
      WakeNextInv(s.(l := l.(rq := Deregister(l.rq, s.rs[f].slot)), rs := s.rs - {f}));
    } else {
      NothingToRemove(l.rq);
      WakeNobody(s.ws);
      WakeNone(s.rs - {f});
    }
  }

  lemma DropWriterInv(s: Sys, f: nat)
    requires Inv(s) && f in s.ws
    ensures Inv(Apply(s, DropWriter(f)))
  {
    hide Bound, Torch, Apart, Deregister, WakeOwner, WakeEach, WakeNext;
    var l := s.l;
    DeregisterBound(l.wq, l.nextId, s.ws, f);
    DeregisterTorch(l.wq, l.nextId, s.ws, f);
    ApartAfterClear(s.rs, s.ws, f);
    if s.ws[f].slot.Some? {
      WakeNextInv(s.(l := l.(wq := Deregister(l.wq, s.ws[f].slot)), ws := s.ws - {f}));
    } else {
      NothingToRemove(l.wq);
      WakeNobody(s.ws - {f});
      WakeNone(s.rs);
      DropUnregistered(l.wq, s.ws, f);
    }
  }

  lemma NewInv(s: Sys, f: nat)
    requires Inv(s)
    ensures f !in s.rs ==> Inv(Apply(s, NewRead(f)))
    ensures f !in s.ws ==> Inv(Apply(s, NewWrite(f)))
  {
    hide Bound, Torch, Apart;
    ApartAfterClear(s.rs, s.ws, f);
    if f !in s.rs {
      NewFuture(s.l.rq, s.l.nextId, s.rs, f);
    }
    if f !in s.ws {
      NewFuture(s.l.wq, s.l.nextId, s.ws, f);
      NewFutureWoken(s.ws, f);
    }
  }

  lemma ReleaseInv(s: Sys)
    requires Inv(s)
    ensures s.readGuards > 0 && s.l.readers > 0 ==> Inv(Apply(s, DropReadGuard))
    ensures s.writeGuards > 0 ==> Inv(Apply(s, DropWriteGuard))
  {
    hide Bound, Torch, Apart, WakeOwner, WakeEach, WakeNext;
    if s.readGuards > 0 && s.l.readers > 0 {
      WakeNextInv(s.(l := s.l.(readers := s.l.readers - 1), readGuards := s.readGuards - 1));
    }
    if s.writeGuards > 0 {
      WakeNextInv(s.(l := s.l.(writer := false), writeGuards := s.writeGuards - 1));
    }
  }

  lemma StepInv(s: Sys, a: Action)
    requires Inv(s) && Enabled(s, a)
    ensures Inv(Apply(s, a))
  {
    hide Bound, Torch, Apart, WakeNext, PollRead, PollWrite, Woken;
    match a
    case NewRead(f) => NewInv(s, f);
    case NewWrite(f) => NewInv(s, f);
    case PollReader(f, waker) => PollReaderInv(s, f, waker);
    case PollWriter(f, waker) => PollWriterInv(s, f, waker);
    case DropReader(f) => DropReaderInv(s, f);
    case DropWriter(f) => DropWriterInv(s, f);
    case TryReadNow =>
    case TryWriteNow =>
    case DropReadGuard => ReleaseInv(s);
    case DropWriteGuard => ReleaseInv(s);
  }

  lemma {:induction false} RunInv(run: seq<Sys>, i: nat)
    requires IsRun(run) && i < |run|
    ensures Inv(run[i])
  {
    if i > 0 {
      RunInv(run, i - 1);
      hide Inv, Apply;
      assert Next(run[i - 1], run[i - 1 + 1]);
      var a :| Enabled(run[i - 1], a) && run[i] == Apply(run[i - 1], a);
      StepInv(run[i - 1], a);
    }
  }

  // ---------------- what every run guarantees ----------------

  /** A writer excludes everybody else, and the reader count is the number of live read guards. */
  lemma WriterExcludesAll(run: seq<Sys>, i: nat)
    requires IsRun(run) && i < |run|
    ensures var s := run[i];
            && s.writeGuards <= 1 && (s.writeGuards == 1 ==> s.readGuards == 0)
            && s.l.readers == s.readGuards && (s.l.writer <==> s.writeGuards == 1)
  {
    RunInv(run, i);
  }

  /**
   While the lock is free and somebody waits, a write future has been woken and
   not yet polled or dropped; its poll or its drop passes the turn on.
   */
  lemma NobodyStranded(run: seq<Sys>, i: nat)
    requires IsRun(run) && i < |run|
    requires Free(run[i].l) && (run[i].l.rq != [] || run[i].l.wq != [])
    ensures exists f :: f in run[i].ws && run[i].ws[f].slot.Some? && run[i].ws[f].notified
  {
    RunInv(run, i);
    var f :| f in run[i].ws && run[i].ws[f].notified;
    assert run[i].ws[f].slot.Some?;
  }

  /** A pending future of either kind is queued, or woken and not yet polled, and never both. */
  lemma QueuedOrWoken(run: seq<Sys>, i: nat, f: nat)
    requires IsRun(run) && i < |run|
    ensures var s := run[i];
            && (f in s.rs && s.rs[f].slot.Some? ==> (s.rs[f].notified <==> !Queued(s.l.rq, s.rs[f].slot.value.id)))
            && (f in s.ws && s.ws[f].slot.Some? ==> (s.ws[f].notified <==> !Queued(s.l.wq, s.ws[f].slot.value.id)))
  {
    RunInv(run, i);
    hide Queued, Bound, Apart;
  }

  /** Every queued token belongs to exactly one live future, of the queue's kind. */
  lemma QueuedIdsAreLive(run: seq<Sys>, i: nat, j: nat)
    requires IsRun(run) && i < |run|
    ensures var s := run[i];
            && (j < |s.l.rq| ==> OneOwner(s.rs, s.l.rq[j]) && forall g :: g in s.ws ==> !OwnsId(s.ws[g], s.l.rq[j].id))
            && (j < |s.l.wq| ==> OneOwner(s.ws, s.l.wq[j]) && forall g :: g in s.rs ==> !OwnsId(s.rs[g], s.l.wq[j].id))
  {
    RunInv(run, i);
    var s := run[i];
    hide Torch;
    if j < |s.l.rq| {
      SoleOwner(s.l.rq, s.l.nextId, s.rs, j);
      var f :| f in s.rs && s.rs[f].slot == Some(s.l.rq[j]);
      assert forall g :: g in s.ws ==> !SameId(s.rs[f], s.ws[g]);
    }
    if j < |s.l.wq| {
      SoleOwner(s.l.wq, s.l.nextId, s.ws, j);
      var f :| f in s.ws && s.ws[f].slot == Some(s.l.wq[j]);
      assert forall g :: g in s.rs ==> !SameId(s.rs[g], s.ws[f]);
    }
  }

  /** Acquisition is exact: an awaited read defers to active and queued writers, `try_read` only to an active one. */
  lemma GrantsExactly(run: seq<Sys>, i: nat, f: nat, waker: nat)
    requires IsRun(run) && i < |run|
    ensures var s := run[i];
            && (f in s.rs ==> (Apply(s, PollReader(f, waker)).readGuards > s.readGuards <==> s.writeGuards == 0 && s.l.wq == []))
            && (f in s.ws ==> (Apply(s, PollWriter(f, waker)).writeGuards > s.writeGuards <==> s.writeGuards == 0 && s.readGuards == 0))
            && (Apply(s, TryReadNow).readGuards > s.readGuards <==> s.writeGuards == 0)
            && (Apply(s, TryWriteNow).writeGuards > s.writeGuards <==> s.writeGuards == 0 && s.readGuards == 0)
  {
    RunInv(run, i);
    hide Queues, Passed, Register, Deregister;
  }

  /** When the last guard goes, the longest queued writer is woken; readers are woken only if no writer waits, and then all of them. */
  lemma TurnGoesToWriterFirst(run: seq<Sys>, i: nat, f: nat)
    requires IsRun(run) && i < |run| && run[i].writeGuards > 0
    ensures var s := run[i]; var s' := Apply(s, DropWriteGuard);
            && s'.ws.Keys == s.ws.Keys && s'.rs.Keys == s.rs.Keys
            && (f in s.ws ==>
                  (s'.ws[f].notified <==> s.ws[f].notified || (s.l.wq != [] && s.ws[f].slot == Some(s.l.wq[0]))))
            && s'.l.rq == (if s.l.wq == [] then [] else s.l.rq)
            && (f in s.rs && s.rs[f].slot.Some? ==>
                  (s'.rs[f].notified <==> s.rs[f].notified || s.l.wq == []))
  {
    RunInv(run, i);
    var s := run[i];
    if s.l.wq != [] {
      SoleOwner(s.l.wq, s.l.nextId, s.ws, 0);
      WakeNone(s.rs);
    } else {
      DrainKeeps(s.l.rq, s.l.nextId, s.rs);
      WakeEachSlots(s.rs, s.l.rq);
      WakeNobody(s.ws);
    }
    hide Bound, Apart, WakeEach;
  }
}

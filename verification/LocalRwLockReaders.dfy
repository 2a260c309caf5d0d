/**
 Queued readers of the reader-writer lock that nothing blocks any more: which
 operations leave one asleep, and a run in which that happens.
 */
module LocalRwLockReaders {
  import opened Wrappers
  import opened Waiters
  import opened LocalRwLock

  /** A read future whose next poll would be granted is not left sleeping in the queue. */
  ghost predicate ReadersServed(s: Sys) {
    TryReadFair(s.l).1 ==> forall f :: f in s.rs && s.rs[f].slot.Some? ==> s.rs[f].notified
  }

  /** The same from the queue's side: a reader is queued only behind an active or a queued writer. */
  lemma ServedMeansEmpty(s: Sys)
    requires Inv(s)
    ensures ReadersServed(s) <==> (!s.l.writer && s.l.wq == [] ==> s.l.rq == [])
  {
    if s.l.rq != [] {
      assert HasOwner(s.rs, s.l.rq[0]);
      var f :| f in s.rs && s.rs[f].slot == Some(s.l.rq[0]);
      assert Queued(s.l.rq, s.l.rq[0].id);
    }
  }

  /**
   The operations that leave a grantable reader asleep.  Either the turn goes to
   the only queued writer while readers queue too, or the last queued writer is
   cancelled while somebody still reads.
   */
  predicate Overlooks(s: Sys, a: Action)
    requires Enabled(s, a)
  {
    match a
    case NewRead(_) => false
    case NewWrite(_) => false
    case PollReader(_, _) => false
    case PollWriter(_, _) => false
    case TryReadNow => false
    case TryWriteNow => false
    case DropReadGuard => s.l.readers == 1 && |s.l.wq| == 1 && s.l.rq != []
    case DropWriteGuard => |s.l.wq| == 1 && s.l.rq != []
    case DropReader(f) =>
      s.rs[f].slot.Some? && Free(s.l) && |s.l.wq| == 1 && Deregister(s.l.rq, s.rs[f].slot) != []
    case DropWriter(f) =>
      && s.ws[f].slot.Some? && s.l.rq != []
      && (if Free(s.l) then |Deregister(s.l.wq, s.ws[f].slot)| == 1
          else s.l.readers > 0 && s.l.wq != [] && Deregister(s.l.wq, s.ws[f].slot) == [])
  }

  /** What `wake_next` makes of it. */
  lemma PassServes(s: Sys)
    requires Guards(s) && Queues(s)
    ensures var (l, w, rs) := WakeNext(s.l); var s' := Woken(s, l, w, rs);
            ReadersServed(s') <==>
              if Free(s.l) then s.l.rq == [] || |s.l.wq| != 1
              else (!s.l.writer && s.l.wq == [] ==> s.l.rq == [])
  {
    WakeNextInv(s);
    var (l, w, rs) := WakeNext(s.l);
    ServedMeansEmpty(Woken(s, l, w, rs));
    hide Inv, Queues, Guards, ReadersServed, WakeOwner, WakeEach;
  }

  lemma CancelReader(s: Sys, f: nat)
    requires Inv(s) && ReadersServed(s) && f in s.rs
    ensures ReadersServed(Apply(s, DropReader(f))) <==> !Overlooks(s, DropReader(f))
  {
    var l := s.l;
    ServedMeansEmpty(s);
    if s.rs[f].slot.Some? {
      DeregisterBound(l.rq, l.nextId, s.rs, f);
      DeregisterTorch(l.rq, l.nextId, s.rs, f);
      ApartAfterClear(s.rs, s.ws, f);
      var s1 := s.(l := l.(rq := Deregister(l.rq, s.rs[f].slot)), rs := s.rs - {f});
      PassServes(s1);
      if l.rq == [] {
        assert Deregister(l.rq, s.rs[f].slot) == [];
      }
    } else {
      WakeNone(s.rs - {f});
    }
    hide Bound, Torch, Apart, Deregister, WakeOwner, WakeEach, WakeNext;
  }

  lemma CancelWriter(s: Sys, f: nat)
    requires Inv(s) && ReadersServed(s) && f in s.ws
    ensures ReadersServed(Apply(s, DropWriter(f))) <==> !Overlooks(s, DropWriter(f))
  {
    var l := s.l;
    ServedMeansEmpty(s);
    if s.ws[f].slot.Some? {
      DeregisterBound(l.wq, l.nextId, s.ws, f);
      DeregisterTorch(l.wq, l.nextId, s.ws, f);
      ApartAfterClear(s.rs, s.ws, f);
      var s1 := s.(l := l.(wq := Deregister(l.wq, s.ws[f].slot)), ws := s.ws - {f});
      PassServes(s1);
      if l.wq == [] {
        assert Deregister(l.wq, s.ws[f].slot) == [];
      }
    } else {
      WakeNone(s.rs);
    }
    hide Bound, Torch, Apart, Deregister, WakeOwner, WakeEach, WakeNext, ReadersServed;
  }

  lemma ReleaseServes(s: Sys, a: Action)
    requires Inv(s) && ReadersServed(s) && Enabled(s, a) && (a.DropReadGuard? || a.DropWriteGuard?)
    ensures ReadersServed(Apply(s, a)) <==> !Overlooks(s, a)
  {
    ServedMeansEmpty(s);
    if a.DropReadGuard? {
      PassServes(s.(l := s.l.(readers := s.l.readers - 1), readGuards := s.readGuards - 1));
    } else {
      PassServes(s.(l := s.l.(writer := false), writeGuards := s.writeGuards - 1));
    }
    hide Bound, Torch, Apart, WakeOwner, WakeEach, WakeNext, ReadersServed;
  }

  lemma OthersServe(s: Sys, a: Action)
    requires Inv(s) && ReadersServed(s) && Enabled(s, a)
    requires !a.DropReadGuard? && !a.DropWriteGuard? && !a.DropReader? && !a.DropWriter?
    ensures ReadersServed(Apply(s, a))
  {
    ServedMeansEmpty(s);
    StepInv(s, a);
    ServedMeansEmpty(Apply(s, a));
    if a.PollReader? && s.l.rq == [] {
      assert Deregister([], s.rs[a.f].slot) == [];
    }
    hide Inv, ReadersServed, Queued;
  }

  /** An operation leaves a grantable reader asleep exactly when `Overlooks` says so beforehand. */
  lemma StepServesExactly(s: Sys, a: Action)
    requires Inv(s) && ReadersServed(s) && Enabled(s, a)
    ensures ReadersServed(Apply(s, a)) <==> !Overlooks(s, a)
  {
    if a.DropReader? {
      CancelReader(s, a.f);
    } else if a.DropWriter? {
      CancelWriter(s, a.f);
    } else if a.DropReadGuard? || a.DropWriteGuard? {
      ReleaseServes(s, a);
    } else {
      OthersServe(s, a);
    }
    hide Inv, ReadersServed, Apply;
  }

  /** Nobody sleeps for good: a sleeping reader that could be granted will be passed the turn by a live guard or a woken writer. */
  lemma SleepersWillBePassed(run: seq<Sys>, i: nat)
    requires IsRun(run) && i < |run| && !ReadersServed(run[i])
    ensures run[i].readGuards > 0 || exists f :: f in run[i].ws && run[i].ws[f].slot.Some? && run[i].ws[f].notified
  {
    RunInv(run, i);
    ServedMeansEmpty(run[i]);
    if run[i].readGuards == 0 {
      hide ReadersServed, Inv;
      WriterExcludesAll(run, i);
      NobodyStranded(run, i);
    }
  }

  // ---------------- a reader left asleep ----------------

  const WRITER: Entry := Entry(0, 1, 7)
  const READER: Entry := Entry(1, 1, 8)

  /** Somebody reads; a writer waits, and behind it a reader. */
  function WriterWaits(rs: map<nat, Fut>): Sys {
    Sys(RwLock(1, false, [], [WRITER], 1), rs, map[0 := Fut(Some(WRITER), false)], 1, 0)
  }

  function BothWait(): Sys {
    Sys(RwLock(1, false, [READER], [WRITER], 2), map[0 := Fut(Some(READER), false)], map[0 := Fut(Some(WRITER), false)], 1, 0)
  }

  function ReaderAsleep(): Sys {
    Sys(RwLock(1, false, [READER], [], 2), map[0 := Fut(Some(READER), false)], map[], 1, 0)
  }

  lemma WriterJoins(s: Sys)
    requires s == Sys(RwLock(1, false, [], [], 0), map[], map[0 := Fut(None, false)], 1, 0)
    ensures Apply(s, PollWriter(0, 7)) == WriterWaits(map[])
  {
    OthersKeeps([], 0);
    hide Others;
  }

  lemma ReaderJoins()
    ensures Apply(WriterWaits(map[0 := Fut(None, false)]), PollReader(0, 8)) == BothWait()
  {
    OthersKeeps([], 1);
    hide Others;
  }

  lemma WriterLeaves()
    ensures Apply(BothWait(), DropWriter(0)) == ReaderAsleep()
  {
    OthersTail([WRITER]);
    WakeNobody(map[]);
    WakeNone(BothWait().rs);
    hide Others, WakeOwner, WakeEach;
  }

  /**
   While somebody reads, the only waiting writer is cancelled: no writer is
   active, queued or even live, and the queued reader is not woken.
   */
  lemma ReaderCanBeLeftAsleep()
    ensures exists run: seq<Sys> ::
              IsRun(run) && |run| == 7 && !ReadersServed(run[6]) && run[6].ws == map[] && run[6].readGuards == 1
  {
    var s0 := Sys(RwLock(0, false, [], [], 0), map[], map[], 0, 0);
    var s1 := Apply(s0, TryReadNow);
    var s2 := Apply(s1, NewWrite(0));
    assert Next(s0, s1) && Next(s1, s2);
    WriterJoins(s2);
    ReaderJoins();
    WriterLeaves();
    var s3, s4 := WriterWaits(map[]), WriterWaits(map[0 := Fut(None, false)]);
    assert Apply(s3, NewRead(0)) == s4;
    hide Apply;
    assert Next(s2, s3) by { assert Enabled(s2, PollWriter(0, 7)); }
    assert Next(s3, s4) by { assert Enabled(s3, NewRead(0)); }
    assert Next(s4, BothWait()) by { assert Enabled(s4, PollReader(0, 8)); }
    assert Next(BothWait(), ReaderAsleep()) by { assert Enabled(BothWait(), DropWriter(0)); }
    assert !ReadersServed(ReaderAsleep()) by { assert ReaderAsleep().rs[0] == Fut(Some(READER), false); }
    var run := [s0, s1, s2, s3, s4, BothWait(), ReaderAsleep()];
    assert Init(run[0]);
    hide Next, Init, ReadersServed, WriterWaits;
    assert forall i :: 0 <= i < 6 ==> Next(run[i], run[i + 1]);
    assert IsRun(run);
  }
}

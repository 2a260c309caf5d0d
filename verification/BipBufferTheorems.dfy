/** What every interleaving of the bip buffer guarantees. */
module BipBufferTheorems {
  import opened Notify
  import opened BipBuffer
  import opened BipBufferProof

  // ---------------- exclusive regions ----------------

  /** Byte `x` belongs to the outstanding write grant. */
  predicate InWriteGrant(k: Core, x: nat) {
    !k.wg.NoWrite? && !k.wg.WClear? && k.wg.start <= x < k.wg.start + k.wg.len
  }

  /** Byte `x` belongs to the outstanding read grant. */
  predicate InReadGrant(k: Core, x: nat) {
    !k.rg.NoRead? && !k.rg.RClear? && k.rg.start <= x < k.rg.start + k.rg.len
  }

  /** Position `x` holds a committed byte that has not been released. */
  predicate HoldsUnread(k: Core, x: nat) {
    !Torn(k) && if k.read <= k.write then k.read <= x < k.write else k.read <= x < k.last || x < k.write
  }

  /** A write grant lies inside the buffer and shares no byte with a reader or with unread data. */
  lemma WriteGrantIsExclusive(run: seq<State>, i: nat, x: nat)
    requires IsRun(run) && i < |run|
    requires InWriteGrant(run[i].k, x)
    ensures x < run[i].k.cap
    ensures !InReadGrant(run[i].k, x) && !HoldsUnread(run[i].k, x)
  {
    RunInv(run, i);
    hide Wired, SpaceWake, DataWake, EpochView, ConsumerView, ProducerView;
  }

  // ---------------- first in, first out ----------------

  /** The released bytes are a prefix of the committed bytes; the rest is exactly what the cursors delimit. */
  lemma ReleasedIsPrefix(run: seq<State>, i: nat)
    requires IsRun(run) && i < |run|
    ensures var s := run[i];
            && s.b.released <= s.b.committed
            && Cursors(s.k) && |s.b.buf| == s.k.cap
            && s.b.committed[|s.b.released|..] == Unread(s.k, s.b.buf)
  {
    RunInv(run, i);
    hide Geometry, Wired, SpaceWake, DataWake, Unread, Cursors;
  }

  /** A read grant shows exactly the next committed bytes, for as long as it is held. */
  lemma ReadGrantShowsNextBytes(run: seq<State>, i: nat)
    requires IsRun(run) && i < |run| && run[i].k.rg.RHeld?
    ensures var s := run[i]; var g := s.k.rg; var from := |s.b.released|;
            && g.start + g.len <= |s.b.buf| && from + g.len <= |s.b.committed|
            && s.b.buf[g.start..g.start + g.len] == s.b.committed[from..from + g.len]
  {
    RunInv(run, i);
    hide Wired, SpaceWake, DataWake, EpochView, ConsumerView, ProducerView, WriteGrantView;
    var s := run[i];
    var g := s.k.rg;
    var u := Unread(s.k, s.b.buf);
    assert s.b.committed[|s.b.released|..] == u;
    assert u[..g.len] == s.b.buf[g.start..g.start + g.len];
  }

  // ---------------- the seqlock ----------------

  /** A consumer about to act holds a sample that no reset has touched and that names readable bytes only. */
  lemma SampleNeverTorn(run: seq<State>, i: nat)
    requires IsRun(run) && i < |run|
    requires run[i].k.c.CCheck? && run[i].k.epoch == run[i].k.c.e
    ensures var k := run[i].k; var CCheck(_, _, w, r, l) := k.c;
            && k.bumps == 0 && !Resetting(k.p)
            && r == k.read
            && (w < r ==> l == k.last && k.write < r <= l)
            && (forall x :: r <= x < (if w < r then l else w) ==> HoldsUnread(k, x))
  {
    RunInv(run, i);
    EqualEpochMeansNoReset(run[i].k);
    SampleDecides(run[i].k);
    hide Wired, SpaceWake, DataWake, ProducerView, WriteGrantView, ReadGrantView;
  }

  /** One `try_read` meets at most one reset, so it throws away at most one sample. */
  lemma OneResetPerTryRead(run: seq<State>, i: nat)
    requires IsRun(run) && i < |run| && ConsumerBusy(run[i].k.c)
    ensures run[i].k.mismatches <= run[i].k.resets <= 1
  {
    RunInv(run, i);
  }

  // ---------------- wakeups ----------------

  /** Some party still has to look at, or has claimed, the flag of `space`. */
  ghost predicate SpaceSignalInFlight(s: State) {
    s.k.rg.RClear? || exists id :: id in s.w.tasks && (OnSpace(s.w.tasks[id]) || s.w.tasks[id].DataThenSpace?)
  }

  ghost predicate DataSignalInFlight(s: State) {
    s.k.wg.WClear? || exists id :: id in s.w.tasks && (!OnSpace(s.w.tasks[id]) || s.w.tasks[id].SpaceThenData?)
  }

  lemma ReserveWakeupNotLost(run: seq<State>, i: nat)
    requires IsRun(run) && i < |run|
    requires run[i].k.p.PParked? && !run[i].w.space.notified && CanReserve(run[i].k, run[i].k.p.n)
    ensures SpaceSignalInFlight(run[i])
  {
    RunInv(run, i);
    hide Geometry, Flags, Accounted, DataWake;
    var s := run[i];
    if s.w.space.armed && !s.k.rg.RClear? {
      var id :| PendingSpace(s.w, id);
    } else if !s.w.space.armed {
      var id :| id in s.w.space.signals && Claims(s.w.space.signals[id], s.w.space.current);
      assert id in s.w.tasks && OnSpace(s.w.tasks[id]);
    }
  }

  lemma ReadWakeupNotLost(run: seq<State>, i: nat)
    requires IsRun(run) && i < |run|
    requires run[i].k.c.CParked? && !run[i].w.data.notified && Unfollowed(run[i].k)
    ensures DataSignalInFlight(run[i])
  {
    RunInv(run, i);
    hide Geometry, Flags, Accounted, SpaceWake;
    var s := run[i];
    if s.w.data.armed && !s.k.wg.WClear? {
      var id :| PendingData(s.w, id);
    } else if !s.w.data.armed {
      var id :| id in s.w.data.signals && Claims(s.w.data.signals[id], s.w.data.current);
      assert id in s.w.tasks && !OnSpace(s.w.tasks[id]);
    }
  }

  /** Neither grant is out and no `signal` call is running. */
  predicate Quiet(s: State) {
    s.k.wg.NoWrite? && s.k.rg.NoRead? && s.w.tasks == map[]
  }

  /** Both ends never sleep at once: a quiet buffer has woken one of them. */
  lemma NeverBothAsleep(run: seq<State>, i: nat)
    requires IsRun(run) && i < |run| && Quiet(run[i])
    requires run[i].k.p.PParked? && run[i].k.c.CParked?
    ensures run[i].w.space.notified || run[i].w.data.notified
  {
    RunInv(run, i);
  }

  // ---------------- what a lone attempt does ----------------

  /** The producer's accesses run one after another, nobody else moving. */
  function Alone(k: Core, steps: nat): Core
    decreases steps
  {
    if steps == 0 || k.p.PIdle? then k else Alone(StepProducer(k, false), steps - 1)
  }

  /** The first three stores of a reset. */
  lemma ResetZeroes(k: Core)
    requires k.p.PBump? && k.p.mode.Once?
    ensures var k' := StepProducer(StepProducer(StepProducer(k, false), false), false);
            && k'.p == PResetLast(k.p.n, Once) && k'.read == k'.write == 0 && k'.cap == k.cap
            && Alone(k, 7) == Alone(k', 4)
  {
    var k1 := StepProducer(k, false);
    var k2 := StepProducer(k1, false);
    assert Alone(k, 7) == Alone(k1, 6) == Alone(k2, 5);
  }

  /** A lone reset always ends in a grant at the head. */
  lemma ResetAlone(k: Core)
    requires k.p.PBump? && k.p.mode.Once? && k.p.n <= k.cap
    ensures var k' := Alone(k, 7);
            k'.p.PIdle? && k'.wip && k'.wg == WHeld(0, k.p.n) && k'.read == k'.write == 0 && k'.cap == k.cap
  {
    ResetZeroes(k);
    var k1 := StepProducer(StepProducer(StepProducer(k, false), false), false);
    SettleAlone(k1);
    hide StepProducer;
  }

  lemma SettleAlone(k: Core)
    requires k.p.PResetLast? && k.p.mode.Once? && k.p.n <= k.cap && k.read == k.write == 0
    ensures var k' := Alone(k, 4);
            k'.p.PIdle? && k'.wip && k'.wg == WHeld(0, k.p.n) && k'.read == k'.write == 0 && k'.cap == k.cap
  {
    var k1 := StepProducer(k, false);
    var k2 := StepProducer(k1, false);
    var k3 := StepProducer(k2, false);
    assert Alone(k, 4) == Alone(k1, 3) == Alone(k2, 2) == Alone(k3, 1) == k3;
  }

  /** The two cursor loads of a lone `try_reserve`, and what it decides on. */
  lemma PlaceAlone(k: Core)
    requires Cursors(k) && k.p.PLoadRead? && k.p.mode.Once? && k.p.n <= k.cap && k.wg.NoWrite? && !k.wip
    ensures var k' := Alone(k, 9);
            && k'.p.PIdle?
            && (k'.wg.WHeld? <==> CanReserve(k, k.p.n))
            && (k'.wg.WHeld? ==> k'.wg.len == k.p.n && k'.wip && Free(k', k'.wg.start, k.p.n))
  {
    var k3 := StepProducer(k, false);
    var k4 := StepProducer(k3, false);
    assert Alone(k, 9) == Alone(k3, 8) == Alone(k4, 7);
    if k4.p.PBump? {
      ResetAlone(k4);
    } else if k4.p.PMark? {
      assert Alone(k4, 7) == Alone(StepProducer(k4, false), 6) == StepProducer(k4, false);
    }
  }

  /** `try_reserve(n)` on its own returns a grant of `n` bytes exactly when `CanReserve` says so. */
  lemma CanReserveIsExact(k: Core, n: nat)
    requires Cursors(k) && k.p.PIdle? && k.wg.NoWrite? && !k.wip
    ensures var k' := Alone(k.(p := PGate(n, Once)), 10);
            && k'.p.PIdle?
            && (k'.wg.WHeld? <==> CanReserve(k, n))
            && (k'.wg.WHeld? ==> k'.wg.len == n && k'.wip && Free(k', k'.wg.start, n))
  {
    var k1 := k.(p := PGate(n, Once));
    var k2 := StepProducer(k1, false);
    assert Alone(k1, 10) == Alone(k2, 9);
    if n <= k.cap {
      PlaceAlone(k2);
    }
  }

  /** The consumer's accesses run one after another, nobody else moving. */
  function AloneReading(k: Core, steps: nat): Core
    decreases steps
  {
    if steps == 0 || k.c.CIdle? then k else AloneReading(StepConsumer(k, false, 0), steps - 1)
  }

  /** A lone sample is the three cursors. */
  lemma SampleAlone(k: Core)
    requires k.c == CGate(Once) && !k.rip && k.epoch % 2 == 0
    ensures var k' := k.(c := CCheck(Once, k.epoch, k.write, k.read, k.last), resets := 0, mismatches := 0, bumps := 0);
            AloneReading(k, 9) == AloneReading(k', 4)
  {
    var k1 := StepConsumer(k, false, 0);
    var k2 := StepConsumer(k1, false, 0);
    var k3 := StepConsumer(k2, false, 0);
    var k4 := StepConsumer(k3, false, 0);
    assert AloneReading(k, 9) == AloneReading(k1, 8) == AloneReading(k2, 7) == AloneReading(k3, 6);
    assert AloneReading(k3, 6) == AloneReading(k4, 5) == AloneReading(StepConsumer(k4, false, 0), 4);
  }

  /** A sample that has reached the watermark first sends the read cursor back to the head. */
  lemma WrapAlone(k: Core)
    requires k.c == CCheck(Once, k.epoch, k.write, k.read, k.last) && k.write < k.read == k.last
    ensures AloneReading(k, 4) == AloneReading(k.(read := 0, c := Found(Once, 0, k.write)), 1)
  {
    var k1 := StepConsumer(k, false, 0);
    var k2 := StepConsumer(k1, false, 0);
    assert AloneReading(k, 4) == AloneReading(k1, 3) == AloneReading(k2, 2);
  }

  lemma MarkAlone(k: Core, steps: nat)
    requires k.c.CMark? && k.c.mode.Once? && steps > 0
    ensures AloneReading(k, steps) == k.(rip := true, rg := RHeld(k.c.start, k.c.len), c := CIdle)
  {
    assert AloneReading(k, steps) == AloneReading(StepConsumer(k, false, 0), steps - 1);
  }

  /** What a lone `try_read` does with its sample. */
  lemma DecideAlone(k: Core)
    requires k.c == CCheck(Once, k.epoch, k.write, k.read, k.last) && k.rg.NoRead?
    ensures var k' := AloneReading(k, 4);
            var start := if k.write < k.read && k.read == k.last then 0 else k.read;
            var end := if k.write < start then k.last else k.write;
            && k'.c.CIdle?
            && k'.rg == (if end <= start then NoRead else RHeld(start, end - start))
            && k'.read == start && k'.write == k.write && k'.last == k.last
  {
    if k.write < k.read && k.read == k.last {
      WrapAlone(k);
      var k1 := k.(read := 0, c := Found(Once, 0, k.write));
      hide StepConsumer;
      if k1.c.CMark? {
        MarkAlone(k1, 1);
      }
    } else {
      var k1 := StepConsumer(k, false, 0);
      assert AloneReading(k, 4) == AloneReading(k1, 3);
      if k1.c.CMark? {
        MarkAlone(k1, 3);
      }
    }
  }

  /**
   `try_read` on its own refuses exactly when nothing is unread; otherwise its
   grant starts at the oldest unread byte and runs to the write cursor or the
   watermark, whichever ends the contiguous part.
   */
  lemma CanReadIsExact(k: Core, buf: seq<Byte>)
    requires Cursors(k) && !Torn(k) && |buf| == k.cap && k.c.CIdle? && k.rg.NoRead? && !k.rip && k.epoch % 2 == 0
    ensures var k' := AloneReading(k.(c := CGate(Once)), 9);
            && k'.c.CIdle?
            && (k'.rg.NoRead? <==> Unread(k, buf) == [])
            && (!k'.rg.NoRead? ==>
                  && k'.rg.RHeld? && k'.rg.len > 0
                  && k'.rg.start + k'.rg.len == (if k'.rg.start <= k.write then k.write else k.last) <= k.cap
                  && buf[k'.rg.start..k'.rg.start + k'.rg.len] <= Unread(k, buf))
  {
    var k0 := k.(c := CGate(Once));
    SampleAlone(k0);
    DecideAlone(k0.(c := CCheck(Once, k.epoch, k.write, k.read, k.last), resets := 0, mismatches := 0, bumps := 0));
    hide StepConsumer, AloneReading;
  }

  /** Every enabled action has its step: the well-formedness that a step asks for holds in every reachable state. */
  lemma EveryActionHasItsStep(run: seq<State>, i: nat, a: Action)
    requires IsRun(run) && i < |run| && Enabled(run[i], a)
    ensures Shape(run[i]) && Next(run[i], Apply(run[i], a))
  {
    RunInv(run, i);
    InvShape(run[i]);
    hide Inv, Apply;
  }
}

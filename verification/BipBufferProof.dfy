/** The inductive invariant of the bip buffer, proved step by step. */
module BipBufferProof {
  import opened Wrappers
  import opened Notify
  import opened BipBuffer

  // ---------------- control ----------------

  predicate ProducerBusy(p: ProducerPc) {
    !p.PIdle? && !p.PGate? && !p.PArm? && !p.PDisarm? && !p.PParked?
  }

  predicate ConsumerBusy(c: ConsumerPc) {
    !c.CIdle? && !c.CGate? && !c.CArm? && !c.CDisarm? && !c.CParked?
  }

  predicate ProducerMode(p: ProducerPc, m: Mode) {
    (p.PGate? || ProducerBusy(p)) && p.mode == m
  }

  predicate ConsumerMode(c: ConsumerPc, m: Mode) {
    (c.CGate? || ConsumerBusy(c)) && c.mode == m
  }

  predicate Flags(k: Core) {
    && k.epoch < EPOCHS && k.cap > 0
    && (k.wip <==> !k.wg.NoWrite?)
    && (k.rip <==> !k.rg.NoRead?)
    && (ProducerBusy(k.p) ==> k.wg.NoWrite?)
    && (ConsumerBusy(k.c) ==> k.rg.NoRead?)
    && (ProducerBusy(k.p) || k.p.PArm? || k.p.PParked? || (k.p.PGate? && !k.p.mode.Once?) ==> k.p.n <= k.cap)
  }

  // ---------------- cursors and grants ----------------

  /** The one point of a reset at which the cursors do not describe the contents. */
  predicate Torn(k: Core) {
    k.p.PZeroWrite?
  }

  predicate Resetting(p: ProducerPc) {
    p.PZeroRead? || p.PZeroWrite? || p.PResetLast? || p.PUnbump?
  }

  predicate Cursors(k: Core) {
    if Torn(k) then k.read == 0 && 0 < k.write <= k.cap
    else k.read <= k.write <= k.cap || k.write < k.read <= k.last <= k.cap
  }

  /** `n` bytes at `start` are free: the tail, the gap below `read`, or the head before a wrap. */
  predicate Free(k: Core, start: nat, n: nat) {
    || (start == k.write && k.write + n <= k.cap && (k.write < k.read ==> k.write + n < k.read))
    || (start == 0 && k.write != 0 && k.read <= k.write && n < k.read)
  }

  predicate ProducerView(k: Core) {
    match k.p
    case PLoadWrite(_, _, r) =>
      r <= k.cap && if k.write < r then k.read <= k.write || r <= k.read else r <= k.read <= k.write
    case PBump(_, _) => k.read == k.write != 0
    case PZeroRead(_, _) => k.read == k.write != 0
    case PResetLast(_, _) => k.read == k.write == 0
    case PUnbump(_, _) => k.read == k.write == 0
    case PMark(n, _, start) => Free(k, start, n)
    case _ => true
  }

  predicate WriteGrantView(k: Core) {
    match k.wg
    case NoWrite => true
    case WClear => true
    case WHeld(start, len) => Free(k, start, len)
    case WLoad(start, len, used) => used <= len && Free(k, start, len)
    case WLast(start, len, used, w) => used <= len && Free(k, start, len) && start == 0 && w == k.write != 0
    case WPublish(start, len, used) =>
      used <= len && Free(k, start, len) && (start == 0 && k.write != 0 ==> k.last == k.write)
  }

  /** `len` bytes at `start` are unread and come next. */
  predicate Readable(k: Core, start: nat, len: nat) {
    && !Torn(k) && start == k.read && len > 0
    && start + len <= if k.read <= k.write then k.write else k.last
  }

  predicate ReadGrantView(k: Core) {
    match k.rg
    case NoRead => true
    case RClear => true
    case RHeld(start, len) => Readable(k, start, len)
    case RLoad(start, len, used) => used <= len && Readable(k, start, len)
    case RStore(start, len, used, r) => used <= len && Readable(k, start, len) && r == k.read
  }

  // ---------------- the consumer's sample of the cursors ----------------

  predicate Sampling(c: ConsumerPc) {
    c.CWrite? || c.CRead? || c.CLast? || c.CCheck?
  }

  /** A `write` sampled earlier still tells the truth about what is readable. */
  predicate SampleTrue(k: Core, w: nat) {
    if w < k.read then w <= k.write < k.read
    else w <= if k.read <= k.write then k.write else k.last
  }

  predicate EpochView(k: Core) {
    && (k.epoch % 2 == 1 <==> Resetting(k.p))
    && (ConsumerBusy(k.c) ==>
          && k.resets <= 1 && k.mismatches <= k.resets
          && (k.resets == 1 ==> Resetting(k.p) || k.read == 0))
    && (Sampling(k.c) ==>
          && k.c.e % 2 == 0 && k.c.e < EPOCHS && k.bumps <= 2
          && k.epoch == (k.c.e + k.bumps) % EPOCHS
          && (k.bumps >= 1 ==> k.resets == 1 && k.mismatches == 0)
          && (k.bumps == 2 ==> k.read == 0))
  }

  predicate ConsumerView(k: Core) {
    match k.c
    case CRead(_, _, w) => k.bumps == 0 ==> SampleTrue(k, w)
    case CLast(_, _, w, r) => k.bumps == 0 ==> SampleTrue(k, w) && r == k.read
    case CCheck(_, _, w, r, l) => k.bumps == 0 ==> SampleTrue(k, w) && r == k.read && (w < r ==> l == k.last)
    case CWrap(_, w, r, l) => !Torn(k) && w <= k.write < k.read == r == l == k.last
    case CSignal(_, w, _) => !Torn(k) && k.read == 0 && w <= k.write
    case CMark(_, start, len) => Readable(k, start, len)
    case _ => true
  }

  predicate Geometry(k: Core) {
    && Cursors(k)
    && ProducerView(k)
    && WriteGrantView(k)
    && ReadGrantView(k)
    && EpochView(k)
    && ConsumerView(k)
  }

  /** With an epoch that wraps, an unchanged value still means that no reset touched the sample. */
  lemma EqualEpochMeansNoReset(k: Core)
    requires EpochView(k) && Sampling(k.c)
    ensures k.epoch == k.c.e <==> k.bumps == 0
    ensures k.bumps == 1 <==> Resetting(k.p)
  {
    var m := EPOCHS;
    assert (k.c.e + k.bumps) % m == if k.c.e + k.bumps < m then k.c.e + k.bumps else k.c.e + k.bumps - m;
  }


  lemma ProducerFlags(k: Core, armed: bool)
    requires Flags(k)
    ensures Flags(StepProducer(k, armed))
  {
  }

  lemma ConsumerFlags(k: Core, armed: bool, task: nat)
    requires Flags(k)
    ensures Flags(StepConsumer(k, armed, task))
  {
  }

  lemma GrantFlags(k: Core)
    requires Flags(k)
    ensures Flags(StepWriteGrant(k))
    ensures Flags(StepReadGrant(k))
  {
  }

  lemma ProducerEnters(k: Core, armed: bool)
    requires Flags(k) && Geometry(k) && k.p.PGate?
    ensures Geometry(StepProducer(k, armed))
  {
  }

  lemma ProducerLoads(k: Core, armed: bool)
    requires Flags(k) && Geometry(k) && k.p.PLoadRead?
    ensures Geometry(StepProducer(k, armed))
  {
  }

  lemma ProducerWaits(k: Core, armed: bool)
    requires Flags(k) && Geometry(k) && (k.p.PArm? || k.p.PDisarm?)
    ensures Geometry(StepProducer(k, armed))
  {
  }

  /** Starting, failing and finishing an attempt moves no cursor. */
  lemma ProducerEdges(k: Core, armed: bool)
    requires Flags(k) && Geometry(k) && (k.p.PGate? || k.p.PArm? || k.p.PDisarm? || k.p.PLoadRead?)
    ensures Geometry(StepProducer(k, armed))
  {
    hide Flags, Geometry, StepProducer;
    if k.p.PGate? {
      ProducerEnters(k, armed);
    } else if k.p.PLoadRead? {
      ProducerLoads(k, armed);
    } else {
      ProducerWaits(k, armed);
    }
  }

  lemma ProducerPlaces(k: Core, armed: bool)
    requires Flags(k) && Geometry(k) && (k.p.PLoadWrite? || k.p.PMark?)
    ensures Geometry(StepProducer(k, armed))
  {
  }

  lemma ProducerResets(k: Core, armed: bool)
    requires Flags(k) && Geometry(k) && (k.p.PBump? || k.p.PZeroRead?)
    ensures Geometry(StepProducer(k, armed))
  {
    if Sampling(k.c) {
      EqualEpochMeansNoReset(k);
    }
  }

  lemma ProducerSettles(k: Core, armed: bool)
    requires Flags(k) && Geometry(k) && (k.p.PZeroWrite? || k.p.PResetLast? || k.p.PUnbump?)
    ensures Geometry(StepProducer(k, armed))
  {
    if Sampling(k.c) {
      EqualEpochMeansNoReset(k);
    }
  }

  lemma ConsumerEnters(k: Core, armed: bool, task: nat)
    requires Flags(k) && Geometry(k) && k.c.CGate?
    ensures Geometry(StepConsumer(k, armed, task))
  {
  }

  lemma ConsumerOpens(k: Core, armed: bool, task: nat)
    requires Flags(k) && Geometry(k) && k.c.CEpoch?
    ensures Geometry(StepConsumer(k, armed, task))
  {
  }

  lemma ConsumerWaits(k: Core, armed: bool, task: nat)
    requires Flags(k) && Geometry(k) && (k.c.CArm? || k.c.CDisarm?)
    ensures Geometry(StepConsumer(k, armed, task))
  {
  }

  lemma ConsumerEdges(k: Core, armed: bool, task: nat)
    requires Flags(k) && Geometry(k) && (k.c.CGate? || k.c.CArm? || k.c.CDisarm? || k.c.CEpoch?)
    ensures Geometry(StepConsumer(k, armed, task))
  {
    hide Flags, Geometry, StepConsumer;
    if k.c.CGate? {
      ConsumerEnters(k, armed, task);
    } else if k.c.CEpoch? {
      ConsumerOpens(k, armed, task);
    } else {
      ConsumerWaits(k, armed, task);
    }
  }

  lemma ConsumerLoadsWrite(k: Core, armed: bool, task: nat)
    requires Flags(k) && Geometry(k) && k.c.CWrite?
    ensures Geometry(StepConsumer(k, armed, task))
  {
    EqualEpochMeansNoReset(k);
  }

  lemma ConsumerLoadsRead(k: Core, armed: bool, task: nat)
    requires Flags(k) && Geometry(k) && k.c.CRead?
    ensures Geometry(StepConsumer(k, armed, task))
  {
    EqualEpochMeansNoReset(k);
  }

  lemma ConsumerLoadsLast(k: Core, armed: bool, task: nat)
    requires Flags(k) && Geometry(k) && k.c.CLast?
    ensures Geometry(StepConsumer(k, armed, task))
  {
    EqualEpochMeansNoReset(k);
  }

  lemma ConsumerSamples(k: Core, armed: bool, task: nat)
    requires Flags(k) && Geometry(k) && (k.c.CWrite? || k.c.CRead? || k.c.CLast?)
    ensures Geometry(StepConsumer(k, armed, task))
  {
    hide Flags, Geometry, StepConsumer;
    if k.c.CWrite? {
      ConsumerLoadsWrite(k, armed, task);
    } else if k.c.CRead? {
      ConsumerLoadsRead(k, armed, task);
    } else {
      ConsumerLoadsLast(k, armed, task);
    }
  }

  lemma ConsumerRetries(k: Core, armed: bool, task: nat)
    requires Flags(k) && Geometry(k) && k.c.CCheck? && k.epoch != k.c.e
    ensures Geometry(StepConsumer(k, armed, task))
  {
    EqualEpochMeansNoReset(k);
  }

  lemma ConsumerDecides(k: Core, armed: bool, task: nat)
    requires Flags(k) && Geometry(k) && k.c.CCheck? && k.epoch == k.c.e
    ensures Geometry(StepConsumer(k, armed, task))
  {
    EqualEpochMeansNoReset(k);
    SampleDecides(k);
  }

  /** An undisturbed sample names a region that is really readable, or none. */
  lemma SampleDecides(k: Core)
    requires Flags(k) && Geometry(k) && k.c.CCheck? && k.bumps == 0
    ensures var CCheck(_, _, w, r, l) := k.c;
            && (w < r ==> w <= k.write < k.read == r <= l == k.last)
            && (r <= w ==> w == r || Readable(k, r, w - r))
            && (w < r < l ==> Readable(k, r, l - r))
  {
    EqualEpochMeansNoReset(k);
  }

  lemma ConsumerTakes(k: Core, armed: bool, task: nat)
    requires Flags(k) && Geometry(k) && (k.c.CWrap? || k.c.CSignal? || k.c.CMark?)
    ensures Geometry(StepConsumer(k, armed, task))
  {
  }

  lemma WriteGrantPublishes(k: Core)
    requires Flags(k) && Geometry(k) && k.wg.WPublish?
    ensures Geometry(StepWriteGrant(k))
  {
  }

  lemma WriteGrantMarks(k: Core)
    requires Flags(k) && Geometry(k) && k.wg.WLast?
    ensures Geometry(StepWriteGrant(k))
  {
  }

  lemma WriteGrantLoads(k: Core)
    requires Flags(k) && Geometry(k) && k.wg.WLoad?
    ensures Geometry(StepWriteGrant(k))
  {
  }

  lemma WriteGrantClears(k: Core)
    requires Flags(k) && Geometry(k) && k.wg.WClear?
    ensures Geometry(StepWriteGrant(k))
  {
  }

  lemma ReadGrantStores(k: Core)
    requires Flags(k) && Geometry(k) && k.rg.RStore?
    ensures Geometry(StepReadGrant(k))
  {
  }

  lemma ReadGrantEdges(k: Core)
    requires Flags(k) && Geometry(k) && (k.rg.RLoad? || k.rg.RClear?)
    ensures Geometry(StepReadGrant(k))
  {
  }

  // ---------------- bytes ----------------

  /** The committed bytes that have not been released, in order. */
  function Unread(k: Core, buf: seq<Byte>): seq<Byte>
    requires Cursors(k) && |buf| == k.cap
  {
    if Torn(k) then []
    else if k.read <= k.write then buf[k.read..k.write]
    else buf[k.read..k.last] + buf[..k.write]
  }

  ghost predicate Accounted(s: State) {
    && |s.b.buf| == s.k.cap
    && Cursors(s.k)
    && s.b.committed == s.b.released + Unread(s.k, s.b.buf)
  }

  lemma ProducerKeepsUnread(k: Core, armed: bool, buf: seq<Byte>)
    requires Cursors(k) && ProducerView(k) && |buf| == k.cap
    requires Cursors(StepProducer(k, armed))
    ensures StepProducer(k, armed).cap == k.cap
    ensures Unread(StepProducer(k, armed), buf) == Unread(k, buf)
  {
    var k' := StepProducer(k, armed);
    if k.p.PZeroRead? || k.p.PZeroWrite? || k.p.PResetLast? {
      assert Unread(k, buf) == [] && Unread(k', buf) == [];
    } else {
      assert k'.read == k.read && k'.write == k.write && k'.last == k.last && (Torn(k') <==> Torn(k));
    }
  }

  lemma ConsumerKeepsUnread(k: Core, armed: bool, task: nat, buf: seq<Byte>)
    requires Cursors(k) && ConsumerView(k) && |buf| == k.cap
    requires Cursors(StepConsumer(k, armed, task))
    ensures StepConsumer(k, armed, task).cap == k.cap
    ensures Unread(StepConsumer(k, armed, task), buf) == Unread(k, buf)
  {
    var k' := StepConsumer(k, armed, task);
    if !k.c.CWrap? {
      assert k'.read == k.read && k'.write == k.write && k'.last == k.last && k'.p == k.p;
    } else {
      assert buf[k.read..k.last] == [];
    }
  }

  lemma CommitAppends(k: Core, buf: seq<Byte>)
    requires Flags(k) && Geometry(k) && |buf| == k.cap && k.wg.WPublish?
    requires Cursors(StepWriteGrant(k))
    ensures StepWriteGrant(k).cap == k.cap
    ensures k.wg.start + k.wg.used <= k.cap
    ensures Unread(StepWriteGrant(k), buf) == Unread(k, buf) + buf[k.wg.start..k.wg.start + k.wg.used]
  {
  }

  lemma WriteGrantKeepsUnread(k: Core, buf: seq<Byte>)
    requires Flags(k) && Geometry(k) && |buf| == k.cap && !k.wg.WPublish?
    requires Cursors(StepWriteGrant(k))
    ensures StepWriteGrant(k).cap == k.cap
    ensures Unread(StepWriteGrant(k), buf) == Unread(k, buf)
  {
  }

  lemma ReleaseRemoves(k: Core, buf: seq<Byte>)
    requires Geometry(k) && |buf| == k.cap && k.rg.RStore?
    requires Cursors(StepReadGrant(k))
    ensures StepReadGrant(k).cap == k.cap
    ensures k.rg.start + k.rg.used <= k.cap
    ensures Unread(k, buf) == buf[k.rg.start..k.rg.start + k.rg.used] + Unread(StepReadGrant(k), buf)
  {
  }

  lemma ReadGrantKeepsUnread(k: Core, buf: seq<Byte>)
    requires Geometry(k) && |buf| == k.cap && !k.rg.RStore?
    requires Cursors(StepReadGrant(k))
    ensures StepReadGrant(k).cap == k.cap
    ensures Unread(StepReadGrant(k), buf) == Unread(k, buf)
  {
  }

  lemma WritingKeepsUnread(k: Core, buf: seq<Byte>, i: nat, b: Byte)
    requires Flags(k) && Geometry(k) && |buf| == k.cap && k.wg.WHeld? && i < k.wg.len
    ensures k.wg.start + i < k.cap
    ensures Unread(k, buf[k.wg.start + i := b]) == Unread(k, buf)
  {
  }

  // ---------------- wiring ----------------

  ghost predicate TasksMatch(w: Wake) {
    && (forall id :: id in w.space.signals ==> id in w.tasks && OnSpace(w.tasks[id]))
    && (forall id :: id in w.data.signals ==> id in w.tasks && !OnSpace(w.tasks[id]))
    && (forall id :: id in w.tasks ==> Running(w, id) && id < w.nextTask)
  }

  ghost predicate Wired(s: State) {
    && TasksMatch(s.w)
    && SlotInv(s.w.space) && SlotInv(s.w.data)
    && (s.k.p.PArm? <==> !AtRest(s.w.space))
    && (s.k.c.CArm? <==> !AtRest(s.w.data))
    && (ProducerMode(s.k.p, Recheck) || s.k.p.PParked? ==> s.w.space.wpc.On?)
    && (ConsumerMode(s.k.c, Recheck) || s.k.c.CParked? ==> s.w.data.wpc.On?)
  }

  lemma SpawnMatches(w: Wake, t: Task)
    requires TasksMatch(w) && SlotInv(w.space) && SlotInv(w.data)
    ensures TasksMatch(Spawn(w, t)) && SlotInv(Spawn(w, t).space) && SlotInv(Spawn(w, t).data)
  {
    if OnSpace(t) {
      BeginSignalInv(w.space, w.nextTask);
    } else {
      BeginSignalInv(w.data, w.nextTask);
    }
  }

  lemma TaskSlots(w: Wake, id: nat)
    requires TasksMatch(w) && SlotInv(w.space) && SlotInv(w.data) && id in w.tasks
    ensures SlotInv(StepTask(w, id).space) && SlotInv(StepTask(w, id).data)
  {
    if OnSpace(w.tasks[id]) {
      StepSignalInv(w.space, id);
      BeginSignalInv(w.data, id);
    } else {
      StepSignalInv(w.data, id);
      BeginSignalInv(w.space, id);
    }
  }

  lemma TaskMatches(w: Wake, id: nat)
    requires TasksMatch(w) && id in w.tasks
    ensures TasksMatch(StepTask(w, id))
    ensures StepTask(w, id).space.wpc == w.space.wpc && StepTask(w, id).data.wpc == w.data.wpc
  {
    if OnSpace(w.tasks[id]) {
      OtherSignallersKept(w.space, id);
    } else {
      OtherSignallersKept(w.data, id);
    }
  }

  // ---------------- no lost wakeup ----------------

  /** Call `id` will still look at the flag of `space`. */
  predicate PendingSpace(w: Wake, id: nat) {
    && id in w.tasks
    && (w.tasks[id].DataThenSpace?
        || (OnSpace(w.tasks[id]) && id in w.space.signals && Early(w.space.signals[id])))
  }

  predicate PendingData(w: Wake, id: nat) {
    && id in w.tasks
    && (w.tasks[id].SpaceThenData?
        || (!OnSpace(w.tasks[id]) && id in w.data.signals && Early(w.data.signals[id])))
  }

  ghost predicate SpaceDue(k: Core, w: Wake) {
    k.rg.RClear? || exists id :: PendingSpace(w, id)
  }

  ghost predicate DataDue(k: Core, w: Wake) {
    k.wg.WClear? || exists id :: PendingData(w, id)
  }

  /** A `try_reserve(n)` run now, on its own, would succeed. */
  predicate CanReserve(k: Core, n: nat) {
    && !k.wip && n <= k.cap
    && ((k.read == k.write && k.write != 0) || Place(k.cap, k.read, k.write, n).Some?)
  }

  /** There is something for the consumer: bytes, or a wrap it has not followed yet. */
  predicate Unfollowed(k: Core) {
    !k.rip && !Torn(k) && k.read != k.write
  }

  ghost predicate SpaceWake(k: Core, w: Wake) {
    w.space.armed ==>
      && (k.p.PLoadWrite? && k.p.mode.Recheck? && k.p.r != k.read ==> SpaceDue(k, w))
      && (k.p.PParked? && CanReserve(k, k.p.n) ==> SpaceDue(k, w))
  }

  predicate Sampled(c: ConsumerPc) {
    c.CRead? || c.CLast? || c.CCheck? || c.CWrap? || c.CSignal?
  }

  /** The consumer is parked, or about to park, on what has changed since it looked. */
  predicate DataMissed(k: Core) {
    || (Sampled(k.c) && k.c.mode.Recheck? && (Sampling(k.c) ==> k.bumps == 0) && k.c.w != k.write)
    || (k.c.CParked? && Unfollowed(k))
  }

  ghost predicate DataWake(k: Core, w: Wake) {
    w.data.armed && DataMissed(k) ==> DataDue(k, w)
  }

  lemma SpawnKeepsDue(w: Wake, t: Task)
    requires TasksMatch(w)
    ensures forall id :: PendingSpace(w, id) ==> PendingSpace(Spawn(w, t), id)
    ensures forall id :: PendingData(w, id) ==> PendingData(Spawn(w, t), id)
    ensures OnSpace(t) || t.DataThenSpace? ==> PendingSpace(Spawn(w, t), w.nextTask)
    ensures !OnSpace(t) || t.SpaceThenData? ==> PendingData(Spawn(w, t), w.nextTask)
  {
  }

  lemma TaskKeepsDue(w: Wake, id: nat, j: nat)
    requires TasksMatch(w) && id in w.tasks
    ensures PendingSpace(w, j) && StepTask(w, id).space.armed ==> PendingSpace(StepTask(w, id), j)
    ensures PendingData(w, j) && StepTask(w, id).data.armed ==> PendingData(StepTask(w, id), j)
  {
    if OnSpace(w.tasks[id]) {
      OtherSignallersKept(w.space, id);
    } else {
      OtherSignallersKept(w.data, id);
    }
  }

  /** What a producer access does to its own slot, as far as others can see. */
  lemma ProducerSlotFrame(slot: Slot, p: ProducerPc, p': ProducerPc)
    requires p.PArm? <==> !AtRest(slot)
    ensures ProducerSlot(slot, p, p').signals == slot.signals
    ensures !p.PArm? && ProducerSlot(slot, p, p').armed ==> slot.armed
  {
  }

  lemma ConsumerSlotFrame(slot: Slot, c: ConsumerPc, c': ConsumerPc)
    requires c.CArm? <==> !AtRest(slot)
    ensures ConsumerSlot(slot, c, c').signals == slot.signals
    ensures !c.CArm? && ConsumerSlot(slot, c, c').armed ==> slot.armed
  {
  }

  lemma ProducerSpaceWake(k: Core, armed: bool, w: Wake)
    requires Flags(k) && ProducerView(k) && SpaceWake(k, w)
    requires k.p.PArm? <==> !AtRest(w.space)
    ensures var k' := StepProducer(k, armed); SpaceWake(k', w.(space := ProducerSlot(w.space, k.p, k'.p)))
  {
    var k' := StepProducer(k, armed);
    var w' := w.(space := ProducerSlot(w.space, k.p, k'.p));
    ProducerSlotFrame(w.space, k.p, k'.p);
    assert forall id :: PendingSpace(w, id) ==> PendingSpace(w', id);
  }

  /** The producer's own accesses never make the consumer miss anything. */
  lemma ProducerHidesNothing(k: Core, armed: bool)
    requires Flags(k) && Geometry(k)
    ensures var k' := StepProducer(k, armed); (DataMissed(k') ==> DataMissed(k)) && (k.wg.WClear? <==> k'.wg.WClear?)
  {
    hide WriteGrantView, ReadGrantView;
    if Sampling(k.c) {
      EqualEpochMeansNoReset(k);
    }
  }

  lemma ProducerDataWake(k: Core, armed: bool, w: Wake)
    requires Flags(k) && Geometry(k) && DataWake(k, w)
    requires k.p.PArm? <==> !AtRest(w.space)
    ensures var k' := StepProducer(k, armed); DataWake(k', w.(space := ProducerSlot(w.space, k.p, k'.p)))
  {
    var k' := StepProducer(k, armed);
    var w' := w.(space := ProducerSlot(w.space, k.p, k'.p));
    ProducerHidesNothing(k, armed);
    hide StepProducer, ProducerSlot, DataMissed, Flags, Geometry;
    assert forall id :: PendingData(w, id) ==> PendingData(w', id);
  }
  /** A re-check that finds nothing parks only if nothing was published after its sample. */
  lemma ConsumerParksWake(k: Core, armed: bool, w: Wake)
    requires Flags(k) && Geometry(k) && DataWake(k, w) && k.c.CCheck? && !k.c.mode.First?
    ensures DataWake(StepConsumer(k, armed, w.nextTask), w)
  {
    EqualEpochMeansNoReset(k);
    if k.bumps == 0 {
      SampleDecides(k);
    }
  }

  lemma ConsumerDataWake(k: Core, armed: bool, w: Wake)
    requires Flags(k) && ConsumerView(k) && DataWake(k, w) && EpochView(k) && !k.c.CWrap?
    requires k.c.CCheck? ==> k.c.mode.First?
    requires k.c.CArm? <==> !AtRest(w.data)
    ensures var k' := StepConsumer(k, armed, w.nextTask); DataWake(k', w.(data := ConsumerSlot(w.data, k.c, k'.c)))
  {
    var k' := StepConsumer(k, armed, w.nextTask);
    var w' := w.(data := ConsumerSlot(w.data, k.c, k'.c));
    ConsumerSlotFrame(w.data, k.c, k'.c);
    assert forall id :: PendingData(w, id) ==> PendingData(w', id);
  }

  lemma ConsumerSpaceWake(k: Core, armed: bool, w: Wake)
    requires Flags(k) && SpaceWake(k, w) && !k.c.CWrap?
    requires k.c.CArm? <==> !AtRest(w.data)
    ensures var k' := StepConsumer(k, armed, w.nextTask); SpaceWake(k', w.(data := ConsumerSlot(w.data, k.c, k'.c)))
  {
    var k' := StepConsumer(k, armed, w.nextTask);
    var w' := w.(data := ConsumerSlot(w.data, k.c, k'.c));
    assert forall id :: PendingSpace(w, id) ==> PendingSpace(w', id);
  }

  lemma ConsumerWrapWake(k: Core, armed: bool, w: Wake)
    requires TasksMatch(w) && ConsumerView(k) && SpaceWake(k, w) && DataWake(k, w) && k.c.CWrap?
    ensures var k' := StepConsumer(k, armed, w.nextTask);
            SpaceWake(k', Spawn(w, LastSpace)) && DataWake(k', Spawn(w, LastSpace))
  {
    SpawnKeepsDue(w, LastSpace);
  }

  lemma WriteGrantWake(k: Core, w: Wake)
    requires Flags(k) && TasksMatch(w) && SpaceWake(k, w) && DataWake(k, w)
    ensures var w' := if k.wg.WClear? then Spawn(w, SpaceThenData) else w;
            SpaceWake(StepWriteGrant(k), w') && DataWake(StepWriteGrant(k), w')
  {
    SpawnKeepsDue(w, SpaceThenData);
  }

  lemma ReadGrantWake(k: Core, w: Wake)
    requires Flags(k) && TasksMatch(w) && SpaceWake(k, w) && DataWake(k, w)
    ensures var w' := if k.rg.RClear? then Spawn(w, DataThenSpace) else w;
            SpaceWake(StepReadGrant(k), w') && DataWake(StepReadGrant(k), w')
  {
    SpawnKeepsDue(w, DataThenSpace);
  }

  lemma DropWake(k: Core, w: Wake)
    requires Flags(k) && TasksMatch(w) && SpaceWake(k, w) && DataWake(k, w)
    ensures k.wg.WHeld? ==>
              var k' := k.(wip := false, wg := NoWrite);
              SpaceWake(k', Spawn(w, LastSpace)) && DataWake(k', Spawn(w, LastSpace))
    ensures k.rg.RHeld? ==>
              var k' := k.(rip := false, rg := NoRead);
              SpaceWake(k', Spawn(w, LastData)) && DataWake(k', Spawn(w, LastData))
  {
    SpawnKeepsDue(w, LastSpace);
    SpawnKeepsDue(w, LastData);
  }

  lemma TaskWake(k: Core, w: Wake, id: nat)
    requires TasksMatch(w) && SpaceWake(k, w) && DataWake(k, w) && id in w.tasks
    ensures SpaceWake(k, StepTask(w, id)) && DataWake(k, StepTask(w, id))
  {
    forall j
      ensures PendingSpace(w, j) && StepTask(w, id).space.armed ==> PendingSpace(StepTask(w, id), j)
      ensures PendingData(w, j) && StepTask(w, id).data.armed ==> PendingData(StepTask(w, id), j)
    {
      TaskKeepsDue(w, id, j);
    }
  }

  // ---------------- the invariant ----------------

  ghost predicate Inv(s: State) {
    && Flags(s.k)
    && Geometry(s.k)
    && Accounted(s)
    && Wired(s)
    && SpaceWake(s.k, s.w)
    && DataWake(s.k, s.w)
  }

  lemma InitInv(s: State)
    requires Init(s)
    ensures Inv(s)
  {
    NewSlotInv();
  }

  lemma InvShape(s: State)
    requires Inv(s)
    ensures Shape(s)
  {
  }

  lemma ProducerGeometry(k: Core, armed: bool)
    requires Flags(k) && Geometry(k) && ProducerSteps(k)
    ensures Geometry(StepProducer(k, armed))
  {
    hide Geometry, Flags, StepProducer;
    if k.p.PGate? || k.p.PArm? || k.p.PDisarm? || k.p.PLoadRead? {
      ProducerEdges(k, armed);
    } else if k.p.PLoadWrite? || k.p.PMark? {
      ProducerPlaces(k, armed);
    } else if k.p.PBump? || k.p.PZeroRead? {
      ProducerResets(k, armed);
    } else {
      ProducerSettles(k, armed);
    }
  }

  lemma ProducerStepInv(s: State)
    requires Inv(s) && ProducerSteps(s.k) && Shape(s)
    ensures Inv(Apply(s, ProducerStep))
  {
    hide Flags, StepProducer, SpaceWake, DataWake, Unread, Cursors, ProducerView, ProducerSlot;
    var armed := s.k.p.PArm? && AtRest(StepArm(s.w.space));
    ProducerFlags(s.k, armed);
    ProducerGeometry(s.k, armed);
    ProducerKeepsUnread(s.k, armed, s.b.buf);
    ProducerSpaceWake(s.k, armed, s.w);
    ProducerDataWake(s.k, armed, s.w);
    ProducerWired(s);
  }

  lemma ProducerWired(s: State)
    requires Flags(s.k) && Wired(s) && Shape(s) && ProducerSteps(s.k)
    ensures Wired(Apply(s, ProducerStep))
  {
    hide SlotInv;
    var k' := StepProducer(s.k, s.k.p.PArm? && AtRest(StepArm(s.w.space)));
    ProducerSlotFrame(s.w.space, s.k.p, k'.p);
    if s.k.p.PArm? {
      StepArmInv(s.w.space);
    } else if s.k.p.PDisarm? {
      DisarmInv(s.w.space);
    } else if k'.p.PArm? {
      BeginArmInv(s.w.space, s.k.p.mode.w);
    }
  }

  lemma ConsumerGeometry(k: Core, armed: bool, task: nat)
    requires Flags(k) && Geometry(k) && !k.c.CIdle? && !k.c.CParked?
    ensures Geometry(StepConsumer(k, armed, task))
  {
    hide Geometry, Flags, StepConsumer;
    if k.c.CGate? || k.c.CArm? || k.c.CDisarm? || k.c.CEpoch? {
      ConsumerEdges(k, armed, task);
    } else if k.c.CWrite? || k.c.CRead? || k.c.CLast? {
      ConsumerSamples(k, armed, task);
    } else if k.c.CCheck? {
      if k.epoch == k.c.e {
        ConsumerDecides(k, armed, task);
      } else {
        ConsumerRetries(k, armed, task);
      }
    } else {
      ConsumerTakes(k, armed, task);
    }
  }

  lemma ConsumerWired(s: State)
    requires Flags(s.k) && Wired(s) && Shape(s) && ConsumerSteps(s) && !s.k.c.CWrap?
    ensures Wired(Apply(s, ConsumerStep))
  {
    hide SlotInv;
    var k' := StepConsumer(s.k, s.k.c.CArm? && AtRest(StepArm(s.w.data)), s.w.nextTask);
    ConsumerSlotFrame(s.w.data, s.k.c, k'.c);
    if s.k.c.CArm? {
      StepArmInv(s.w.data);
    } else if s.k.c.CDisarm? {
      DisarmInv(s.w.data);
    } else if k'.c.CArm? {
      BeginArmInv(s.w.data, s.k.c.mode.w);
    }
  }

  lemma ConsumerWrapWired(s: State)
    requires Flags(s.k) && Wired(s) && Shape(s) && ConsumerSteps(s) && s.k.c.CWrap?
    ensures Wired(Apply(s, ConsumerStep))
  {
    hide SlotInv, TasksMatch, Spawn;
    SpawnMatches(s.w, LastSpace);
    SpawnKeepsPcs(s.w, LastSpace);
  }

  lemma ConsumerStepInv(s: State)
    requires Inv(s) && ConsumerSteps(s) && Shape(s)
    ensures Inv(Apply(s, ConsumerStep))
  {
    hide Flags, StepConsumer, SpaceWake, DataWake, Unread, Cursors, ConsumerView, EpochView, ConsumerSlot, Spawn;
    var armed := s.k.c.CArm? && AtRest(StepArm(s.w.data));
    var k' := StepConsumer(s.k, armed, s.w.nextTask);
    ConsumerFlags(s.k, armed, s.w.nextTask);
    ConsumerGeometry(s.k, armed, s.w.nextTask);
    ConsumerKeepsUnread(s.k, armed, s.w.nextTask, s.b.buf);
    if s.k.c.CWrap? {
      ConsumerWrapWake(s.k, armed, s.w);
      ConsumerWrapWired(s);
    } else {
      ConsumerWired(s);
      ConsumerSpaceWake(s.k, armed, s.w);
      if s.k.c.CCheck? && !s.k.c.mode.First? {
        ConsumerParksWake(s.k, armed, s.w);
        assert ConsumerSlot(s.w.data, s.k.c, k'.c) == s.w.data by {
          CheckKeepsSlot(s.w.data, s.k.c, k'.c);
        }
      } else {
        ConsumerDataWake(s.k, armed, s.w);
      }
    }
  }

  lemma CheckKeepsSlot(slot: Slot, c: ConsumerPc, c': ConsumerPc)
    requires c.CCheck? && !c.mode.First? && AtRest(slot)
    ensures ConsumerSlot(slot, c, c') == slot
  {
  }

  lemma WriteGrantGeometry(k: Core)
    requires Flags(k) && Geometry(k) && WriteGrantSteps(k)
    ensures Geometry(StepWriteGrant(k))
  {
    hide Geometry, Flags, StepWriteGrant;
    if k.wg.WPublish? {
      WriteGrantPublishes(k);
    } else if k.wg.WLast? {
      WriteGrantMarks(k);
    } else if k.wg.WLoad? {
      WriteGrantLoads(k);
    } else {
      WriteGrantClears(k);
    }
  }

  lemma WriteGrantBytes(s: State)
    requires Flags(s.k) && Geometry(s.k) && Accounted(s) && WriteGrantSteps(s.k) && Shape(s)
    requires Geometry(StepWriteGrant(s.k))
    ensures Accounted(Apply(s, WriteGrantStep))
  {
    hide Unread, ProducerView, ConsumerView, EpochView, Spawn;
    if s.k.wg.WPublish? {
      CommitAppends(s.k, s.b.buf);
    } else {
      WriteGrantKeepsUnread(s.k, s.b.buf);
    }
  }

  lemma WriteGrantWired(s: State)
    requires Wired(s) && WriteGrantSteps(s.k) && Shape(s)
    ensures Wired(Apply(s, WriteGrantStep))
  {
    hide Spawn, SlotInv, TasksMatch;
    SpawnMatches(s.w, SpaceThenData);
    SpawnKeepsPcs(s.w, SpaceThenData);
  }

  lemma WriteGrantStepInv(s: State)
    requires Inv(s) && WriteGrantSteps(s.k) && Shape(s)
    ensures Inv(Apply(s, WriteGrantStep))
  {
    GrantFlags(s.k);
    WriteGrantGeometry(s.k);
    WriteGrantBytes(s);
    WriteGrantWired(s);
    assert TasksMatch(s.w);
    WriteGrantWake(s.k, s.w);
    hide Flags, Geometry, Accounted, Wired, SpaceWake, DataWake, Spawn, StepWriteGrant;
  }
  lemma SpawnKeepsPcs(w: Wake, t: Task)
    ensures Spawn(w, t).space.wpc == w.space.wpc && Spawn(w, t).data.wpc == w.data.wpc
  {
  }

  lemma ReadGrantGeometry(k: Core)
    requires Flags(k) && Geometry(k) && ReadGrantSteps(k)
    ensures Geometry(StepReadGrant(k))
  {
    hide Geometry, Flags, StepReadGrant;
    if k.rg.RStore? {
      ReadGrantStores(k);
    } else {
      ReadGrantEdges(k);
    }
  }

  lemma ReadGrantBytes(s: State)
    requires Flags(s.k) && Geometry(s.k) && Accounted(s) && ReadGrantSteps(s.k) && Shape(s)
    requires Geometry(StepReadGrant(s.k))
    ensures Accounted(Apply(s, ReadGrantStep))
  {
    hide Unread, ProducerView, ConsumerView, EpochView, Spawn;
    if s.k.rg.RStore? {
      ReleaseRemoves(s.k, s.b.buf);
    } else {
      ReadGrantKeepsUnread(s.k, s.b.buf);
    }
  }

  lemma ReadGrantWired(s: State)
    requires Wired(s) && ReadGrantSteps(s.k) && Shape(s)
    ensures Wired(Apply(s, ReadGrantStep))
  {
    hide Spawn, SlotInv, TasksMatch;
    SpawnMatches(s.w, DataThenSpace);
    SpawnKeepsPcs(s.w, DataThenSpace);
  }

  lemma ReadGrantStepInv(s: State)
    requires Inv(s) && ReadGrantSteps(s.k) && Shape(s)
    ensures Inv(Apply(s, ReadGrantStep))
  {
    GrantFlags(s.k);
    ReadGrantGeometry(s.k);
    ReadGrantBytes(s);
    ReadGrantWired(s);
    assert TasksMatch(s.w);
    ReadGrantWake(s.k, s.w);
    hide Flags, Geometry, Accounted, Wired, SpaceWake, DataWake, Spawn, StepReadGrant;
  }
  lemma DropWriteCore(k: Core)
    requires Flags(k) && Geometry(k) && k.wg.WHeld?
    ensures Flags(k.(wip := false, wg := NoWrite)) && Geometry(k.(wip := false, wg := NoWrite))
  {
  }

  lemma DropReadCore(k: Core)
    requires Flags(k) && Geometry(k) && k.rg.RHeld?
    ensures Flags(k.(rip := false, rg := NoRead)) && Geometry(k.(rip := false, rg := NoRead))
  {
  }

  lemma DropWriteInv(s: State)
    requires Inv(s) && Shape(s) && s.k.wg.WHeld?
    ensures Inv(Apply(s, DropWrite))
  {
    hide SpaceWake, DataWake, Spawn, Geometry, SlotInv, TasksMatch;
    DropWriteCore(s.k);
    DropWake(s.k, s.w);
    SpawnMatches(s.w, LastSpace);
    SpawnKeepsPcs(s.w, LastSpace);
  }

  lemma DropReadInv(s: State)
    requires Inv(s) && Shape(s) && s.k.rg.RHeld?
    ensures Inv(Apply(s, DropRead))
  {
    hide SpaceWake, DataWake, Spawn, Geometry, SlotInv, TasksMatch;
    DropReadCore(s.k);
    DropWake(s.k, s.w);
    SpawnMatches(s.w, LastData);
    SpawnKeepsPcs(s.w, LastData);
  }

  lemma TaskStepInv(s: State, id: nat)
    requires Inv(s) && Shape(s) && id in s.w.tasks
    ensures Inv(Apply(s, TaskStep(id)))
  {
    hide SpaceWake, DataWake, StepTask, Geometry, Flags, SlotInv, TasksMatch;
    TaskWake(s.k, s.w, id);
    TaskMatches(s.w, id);
    TaskSlots(s.w, id);
  }

  /** The calls that start or abandon an operation touch no shared word. */
  lemma ProducerCallCore(k: Core, p: ProducerPc, w: Wake)
    requires Flags(k) && Geometry(k) && SpaceWake(k, w) && DataWake(k, w)
    requires k.p.PIdle? || k.p.PParked?
    requires p.PIdle? || (p.PGate? && (p.mode.Once? || (p.mode.First? && p.n <= k.cap)))
    ensures var k' := k.(p := p); Flags(k') && Geometry(k') && SpaceWake(k', w) && DataWake(k', w)
  {
  }

  lemma ConsumerCallCore(k: Core, c: ConsumerPc, w: Wake)
    requires Flags(k) && Geometry(k) && SpaceWake(k, w) && DataWake(k, w)
    requires k.c.CIdle? || k.c.CParked?
    requires c.CIdle? || (c.CGate? && !c.mode.Recheck?)
    ensures var k' := k.(c := c); Flags(k') && Geometry(k') && SpaceWake(k', w) && DataWake(k', w)
  {
  }

  lemma CallInv(s: State, a: Action)
    requires Inv(s) && Shape(s) && Enabled(s, a)
    requires a.TryReserve? || a.PollReserve? || a.CancelReserve? || a.TryRead? || a.PollRead? || a.CancelRead?
    ensures Inv(Apply(s, a))
  {
    hide SlotInv, TasksMatch, Flags, Geometry, SpaceWake, DataWake;
    var k' := Apply(s, a).k;
    if a.TryReserve? || a.PollReserve? || a.CancelReserve? {
      ProducerCallCore(s.k, k'.p, s.w);
    } else {
      ConsumerCallCore(s.k, k'.c, s.w);
    }
  }

  lemma CommitCore(k: Core, used: nat, w: Wake)
    requires Flags(k) && Geometry(k) && SpaceWake(k, w) && DataWake(k, w) && k.wg.WHeld?
    ensures var k' := k.(wg := WLoad(k.wg.start, k.wg.len, Min(used, k.wg.len)));
            Flags(k') && Geometry(k') && SpaceWake(k', w) && DataWake(k', w)
  {
  }

  lemma ReleaseCore(k: Core, used: nat, w: Wake)
    requires Flags(k) && Geometry(k) && SpaceWake(k, w) && DataWake(k, w) && k.rg.RHeld?
    ensures var k' := k.(rg := RLoad(k.rg.start, k.rg.len, Min(used, k.rg.len)));
            Flags(k') && Geometry(k') && SpaceWake(k', w) && DataWake(k', w)
  {
  }

  lemma GrantCallInv(s: State, a: Action)
    requires Inv(s) && Shape(s) && Enabled(s, a)
    requires a.Commit? || a.Release? || a.WriteByte?
    ensures Inv(Apply(s, a))
  {
    hide SlotInv, TasksMatch, Flags, Geometry, SpaceWake, DataWake;
    match a
    case WriteByte(i, b) => WritingKeepsUnread(s.k, s.b.buf, i, b);
    case Commit(used) => CommitCore(s.k, used, s.w);
    case Release(used) => ReleaseCore(s.k, used, s.w);
  }

  lemma StepInv(s: State, a: Action)
    requires Inv(s) && Shape(s) && Enabled(s, a)
    ensures Inv(Apply(s, a))
  {
    hide Inv, Apply, Shape;
    match a
    case ProducerStep => ProducerStepInv(s);
    case WriteGrantStep => WriteGrantStepInv(s);
    case DropWrite => DropWriteInv(s);
    case ConsumerStep => ConsumerStepInv(s);
    case ReadGrantStep => ReadGrantStepInv(s);
    case DropRead => DropReadInv(s);
    case TaskStep(id) => TaskStepInv(s, id);
    case Commit(_) => GrantCallInv(s, a);
    case Release(_) => GrantCallInv(s, a);
    case WriteByte(_, _) => GrantCallInv(s, a);
    case TryReserve(_) => CallInv(s, a);
    case PollReserve(_, _) => CallInv(s, a);
    case CancelReserve => CallInv(s, a);
    case TryRead => CallInv(s, a);
    case PollRead(_) => CallInv(s, a);
    case CancelRead => CallInv(s, a);
  }

  lemma {:induction false} RunInv(run: seq<State>, i: nat)
    requires IsRun(run) && i < |run|
    ensures Inv(run[i])
  {
    hide Inv, Apply, Shape, Init;
    if i == 0 {
      InitInv(run[0]);
    } else {
      RunInv(run, i - 1);
      assert Next(run[i - 1], run[i - 1 + 1]);
      var a :| Enabled(run[i - 1], a) && run[i] == Apply(run[i - 1], a);
      StepInv(run[i - 1], a);
    }
  }
}

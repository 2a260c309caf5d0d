/**
 The bip buffer: a watermark ring that hands out contiguous grants, with a
 seqlock-guarded reset of its three cursors.

 The state records every shared word, the byte store, where each party stands
 between two atomic accesses, and every `signal` call still running.  Grants
 are separate parties, because they may be committed, released or dropped from
 another thread while the half that issued them is already working again.
 */
module BipBuffer {
  import opened Wrappers
  import opened Notify

  type Byte = b: int | 0 <= b < 256

  /** Number of values of the machine word that counts epochs. */
  const EPOCHS: nat := 0x1_0000_0000_0000_0000

  /** A bare `try_` call, the first attempt of a poll (with its waker), or the attempt after arming. */
  datatype Mode = Once | First(w: Waker) | Recheck

  /** The next atomic access of the producer. */
  datatype ProducerPc =
    | PIdle
    | PGate(n: nat, mode: Mode)
    | PLoadRead(n: nat, mode: Mode)
    | PLoadWrite(n: nat, mode: Mode, r: nat)
    | PBump(n: nat, mode: Mode)
    | PZeroRead(n: nat, mode: Mode)
    | PZeroWrite(n: nat, mode: Mode)
    | PResetLast(n: nat, mode: Mode)
    | PUnbump(n: nat, mode: Mode)
    | PMark(n: nat, mode: Mode, start: nat)
    | PArm(n: nat)
    | PDisarm
    | PParked(n: nat)

  /** The next atomic access of the consumer. */
  datatype ConsumerPc =
    | CIdle
    | CGate(mode: Mode)
    | CEpoch(mode: Mode)
    | CWrite(mode: Mode, e: nat)
    | CRead(mode: Mode, e: nat, w: nat)
    | CLast(mode: Mode, e: nat, w: nat, r: nat)
    | CCheck(mode: Mode, e: nat, w: nat, r: nat, l: nat)
    | CWrap(mode: Mode, w: nat, r: nat, l: nat)
    | CSignal(mode: Mode, w: nat, id: nat)
    | CMark(mode: Mode, start: nat, len: nat)
    | CArm
    | CDisarm
    | CParked

  /** An outstanding write grant and the next atomic access of its `commit`. */
  datatype WriteGrant =
    | NoWrite
    | WHeld(start: nat, len: nat)
    | WLoad(start: nat, len: nat, used: nat)
    | WLast(start: nat, len: nat, used: nat, w: nat)
    | WPublish(start: nat, len: nat, used: nat)
    | WClear

  /** An outstanding read grant and the next atomic access of its `release`. */
  datatype ReadGrant =
    | NoRead
    | RHeld(start: nat, len: nat)
    | RLoad(start: nat, len: nat, used: nat)
    | RStore(start: nat, len: nat, used: nat, r: nat)
    | RClear

  /** The `signal` calls a finished operation still owes; the first one is running. */
  datatype Task = SpaceThenData | DataThenSpace | LastSpace | LastData

  predicate OnSpace(t: Task) {
    t.SpaceThenData? || t.LastSpace?
  }

  /**
   The cursors, the flags and every program counter.  `bumps` counts epoch
   increments since the consumer last sampled the epoch; `resets` and
   `mismatches` count the resets begun and the samples thrown away since the
   current `try_read` passed its gate.
   */
  datatype Core = Core(
    cap: nat, write: nat, read: nat, last: nat, epoch: nat, wip: bool, rip: bool,
    p: ProducerPc, c: ConsumerPc, wg: WriteGrant, rg: ReadGrant,
    bumps: nat, resets: nat, mismatches: nat)

  /** The byte store and the histories of both ends. */
  datatype Bytes = Bytes(buf: seq<Byte>, committed: seq<Byte>, released: seq<Byte>)

  /** Both wakeup slots and the `signal` calls still running. */
  datatype Wake = Wake(space: Slot, data: Slot, tasks: map<nat, Task>, nextTask: nat)

  datatype State = State(k: Core, b: Bytes, w: Wake)

  ghost predicate Init(s: State) {
    && s.k.cap > 0 && |s.b.buf| == s.k.cap
    && s.k == Core(s.k.cap, 0, 0, s.k.cap, 0, false, false, PIdle, CIdle, NoWrite, NoRead, 0, 0, 0)
    && s.b == Bytes(s.b.buf, [], [])
    && s.w == Wake(NewSlot(), NewSlot(), map[], 0)
  }

  // ---------------- signal calls ----------------

  function Spawn(w: Wake, t: Task): Wake {
    var w1 := w.(tasks := w.tasks[w.nextTask := t], nextTask := w.nextTask + 1);
    if OnSpace(t) then w1.(space := BeginSignal(w.space, w.nextTask))
    else w1.(data := BeginSignal(w.data, w.nextTask))
  }

  predicate Running(w: Wake, id: nat) {
    id in w.tasks && if OnSpace(w.tasks[id]) then id in w.space.signals else id in w.data.signals
  }

  function StepTask(w: Wake, id: nat): Wake
    requires Running(w, id)
  {
    if OnSpace(w.tasks[id]) then
      var w1 := w.(space := StepSignal(w.space, id));
      if id in w1.space.signals then w1
      else if w.tasks[id].LastSpace? then w1.(tasks := w.tasks - {id})
      else w1.(tasks := w.tasks[id := LastData], data := BeginSignal(w.data, id))
    else
      var w1 := w.(data := StepSignal(w.data, id));
      if id in w1.data.signals then w1
      else if w.tasks[id].LastData? then w1.(tasks := w.tasks - {id})
      else w1.(tasks := w.tasks[id := LastSpace], space := BeginSignal(w.space, id))
  }

  // ---------------- try_reserve and Reserve::poll ----------------

  /** Where `n` bytes fit, given the two cursors. */
  function Place(cap: nat, read: nat, write: nat, n: nat): Option<nat> {
    if write < read then (if n < read - write then Some(write) else None)
    else if n <= cap - write then Some(write)
    else if n < read then Some(0)
    else None
  }

  /** A failed attempt returns, arms, or parks. */
  function Refused(n: nat, mode: Mode): ProducerPc {
    match mode
    case Once => PIdle
    case First(_) => PArm(n)
    case Recheck => PParked(n)
  }

  function Placed(n: nat, mode: Mode, at: Option<nat>): ProducerPc {
    if at.Some? then PMark(n, mode, at.value) else Refused(n, mode)
  }

  predicate ProducerSteps(k: Core) {
    !k.p.PIdle? && !k.p.PParked?
  }

  /** One atomic access of the producer; `armed` says that its `arm` call has just returned. */
  function StepProducer(k: Core, armed: bool): Core {
    match k.p
    case PIdle => k
    case PParked(_) => k
    case PGate(n, m) =>
      k.(p := if k.wip || n > k.cap then Refused(n, m) else PLoadRead(n, m))
    case PLoadRead(n, m) => k.(p := PLoadWrite(n, m, k.read))
    case PLoadWrite(n, m, r) =>
      k.(p := if r == k.write && k.write != 0 then PBump(n, m) else Placed(n, m, Place(k.cap, r, k.write, n)))
    case PBump(n, m) =>
      k.(epoch := (k.epoch + 1) % EPOCHS, bumps := k.bumps + 1, resets := k.resets + 1, p := PZeroRead(n, m))
    case PZeroRead(n, m) => k.(read := 0, p := PZeroWrite(n, m))
    case PZeroWrite(n, m) => k.(write := 0, p := PResetLast(n, m))
    case PResetLast(n, m) => k.(last := k.cap, p := PUnbump(n, m))
    case PUnbump(n, m) =>
      k.(epoch := (k.epoch + 1) % EPOCHS, bumps := k.bumps + 1, p := Placed(n, m, Place(k.cap, 0, 0, n)))
    case PMark(n, m, start) =>
      k.(wip := true, wg := WHeld(start, n), p := if m.Recheck? then PDisarm else PIdle)
    case PArm(n) => k.(p := if armed then PGate(n, Recheck) else k.p)
    case PDisarm => k.(p := PIdle)
  }

  /** What the same access does to the slot the producer waits on. */
  function ProducerSlot(slot: Slot, p: ProducerPc, p': ProducerPc): Slot
    requires p.PArm? <==> !AtRest(slot)
  {
    if p.PArm? then StepArm(slot)
    else if p.PDisarm? then Disarm(slot)
    else if p'.PArm? && (p.PGate? || p.PLoadWrite? || p.PUnbump?) && p.mode.First? then BeginArm(slot, p.mode.w)
    else slot
  }

  // ---------------- WriteGrant ----------------

  predicate WriteGrantSteps(k: Core) {
    !k.wg.NoWrite? && !k.wg.WHeld?
  }

  function StepWriteGrant(k: Core): Core {
    match k.wg
    case NoWrite => k
    case WHeld(_, _) => k
    case WLoad(start, len, used) =>
      k.(wg := if start == 0 && k.write != 0 then WLast(start, len, used, k.write) else WPublish(start, len, used))
    case WLast(start, len, used, w) => k.(last := w, wg := WPublish(start, len, used))
    case WPublish(start, len, used) => k.(write := start + used, wg := WClear)
    case WClear => k.(wip := false, wg := NoWrite)
  }

  // ---------------- try_read and Read::poll ----------------

  function Empty(mode: Mode): ConsumerPc {
    match mode
    case Once => CIdle
    case First(_) => CArm
    case Recheck => CParked
  }

  function Found(mode: Mode, start: nat, end: nat): ConsumerPc {
    if end <= start then Empty(mode) else CMark(mode, start, end - start)
  }

  predicate ConsumerSteps(s: State) {
    !s.k.c.CIdle? && !s.k.c.CParked? && (s.k.c.CSignal? ==> s.k.c.id !in s.w.tasks)
  }

  /** One atomic access of the consumer; `task` names the `signal` call it may start. */
  function StepConsumer(k: Core, armed: bool, task: nat): Core {
    match k.c
    case CIdle => k
    case CParked => k
    case CGate(m) =>
      if k.rip then k.(c := Empty(m)) else k.(c := CEpoch(m), resets := 0, mismatches := 0)
    case CEpoch(m) =>
      if k.epoch % 2 == 1 then k else k.(c := CWrite(m, k.epoch), bumps := 0)
    case CWrite(m, e) => k.(c := CRead(m, e, k.write))
    case CRead(m, e, w) => k.(c := CLast(m, e, w, k.read))
    case CLast(m, e, w, r) => k.(c := CCheck(m, e, w, r, k.last))
    case CCheck(m, e, w, r, l) =>
      if k.epoch != e then k.(c := CEpoch(m), mismatches := k.mismatches + 1)
      else if w < r && r == l then k.(c := CWrap(m, w, r, l))
      else k.(c := Found(m, r, if w < r then l else w))
    case CWrap(m, w, r, l) => k.(read := 0, c := CSignal(m, w, task))
    case CSignal(m, w, id) => k.(c := Found(m, 0, w))
    case CMark(m, start, len) =>
      k.(rip := true, rg := RHeld(start, len), c := if m.Recheck? then CDisarm else CIdle)
    case CArm => k.(c := if armed then CGate(Recheck) else k.c)
    case CDisarm => k.(c := CIdle)
  }

  function ConsumerSlot(slot: Slot, c: ConsumerPc, c': ConsumerPc): Slot
    requires c.CArm? <==> !AtRest(slot)
  {
    if c.CArm? then StepArm(slot)
    else if c.CDisarm? then Disarm(slot)
    else if c'.CArm? && (c.CGate? || c.CCheck? || c.CSignal?) && c.mode.First? then BeginArm(slot, c.mode.w)
    else slot
  }

  // ---------------- ReadGrant ----------------

  predicate ReadGrantSteps(k: Core) {
    !k.rg.NoRead? && !k.rg.RHeld?
  }

  function StepReadGrant(k: Core): Core {
    match k.rg
    case NoRead => k
    case RHeld(_, _) => k
    case RLoad(start, len, used) => k.(rg := RStore(start, len, used, k.read))
    case RStore(start, len, used, r) => k.(read := r + used, rg := RClear)
    case RClear => k.(rip := false, rg := NoRead)
  }

  // ---------------- the step relation ----------------

  datatype Action =
    | TryReserve(n: nat)
    | PollReserve(n: nat, w: Waker)
    | CancelReserve
    | ProducerStep
    | WriteByte(i: nat, b: Byte)
    | Commit(used: nat)
    | WriteGrantStep
    | DropWrite
    | TryRead
    | PollRead(w: Waker)
    | CancelRead
    | ConsumerStep
    | Release(used: nat)
    | ReadGrantStep
    | DropRead
    | TaskStep(id: nat)

  ghost predicate Enabled(s: State, a: Action) {
    match a
    case TryReserve(_) => s.k.p.PIdle?
    case PollReserve(n, _) => n <= s.k.cap && (s.k.p.PIdle? || s.k.p == PParked(n))
    case CancelReserve => s.k.p.PParked?
    case ProducerStep => ProducerSteps(s.k)
    case WriteByte(i, _) => s.k.wg.WHeld? && i < s.k.wg.len
    case Commit(_) => s.k.wg.WHeld?
    case WriteGrantStep => WriteGrantSteps(s.k)
    case DropWrite => s.k.wg.WHeld?
    case TryRead => s.k.c.CIdle?
    case PollRead(_) => s.k.c.CIdle? || s.k.c.CParked?
    case CancelRead => s.k.c.CParked?
    case ConsumerStep => ConsumerSteps(s)
    case Release(_) => s.k.rg.RHeld?
    case ReadGrantStep => ReadGrantSteps(s.k)
    case DropRead => s.k.rg.RHeld?
    case TaskStep(id) => id in s.w.tasks
  }

  ghost function Apply(s: State, a: Action): State
    requires Shape(s) && Enabled(s, a)
  {
    match a
    case TryReserve(n) => s.(k := s.k.(p := PGate(n, Once)))
    case PollReserve(n, w) => s.(k := s.k.(p := PGate(n, First(w))))
    case CancelReserve => s.(k := s.k.(p := PIdle))
    case ProducerStep =>
      var k := StepProducer(s.k, s.k.p.PArm? && AtRest(StepArm(s.w.space)));
      s.(k := k, w := s.w.(space := ProducerSlot(s.w.space, s.k.p, k.p)))
    case WriteByte(i, b) => s.(b := s.b.(buf := s.b.buf[s.k.wg.start + i := b]))
    case Commit(used) => s.(k := s.k.(wg := WLoad(s.k.wg.start, s.k.wg.len, Min(used, s.k.wg.len))))
    case WriteGrantStep =>
      State(StepWriteGrant(s.k),
            if s.k.wg.WPublish? then s.b.(committed := s.b.committed + s.b.buf[s.k.wg.start..s.k.wg.start + s.k.wg.used])
            else s.b,
            if s.k.wg.WClear? then Spawn(s.w, SpaceThenData) else s.w)
    case DropWrite =>
      s.(k := s.k.(wip := false, wg := NoWrite), w := if s.k.wip then Spawn(s.w, LastSpace) else s.w)
    case TryRead => s.(k := s.k.(c := CGate(Once)))
    case PollRead(w) => s.(k := s.k.(c := CGate(First(w))))
    case CancelRead => s.(k := s.k.(c := CIdle))
    case ConsumerStep =>
      var k := StepConsumer(s.k, s.k.c.CArm? && AtRest(StepArm(s.w.data)), s.w.nextTask);
      s.(k := k,
         w := if s.k.c.CWrap? then Spawn(s.w, LastSpace)
              else s.w.(data := ConsumerSlot(s.w.data, s.k.c, k.c)))
    case Release(used) => s.(k := s.k.(rg := RLoad(s.k.rg.start, s.k.rg.len, Min(used, s.k.rg.len))))
    case ReadGrantStep =>
      State(StepReadGrant(s.k),
            if s.k.rg.RStore? then s.b.(released := s.b.released + s.b.buf[s.k.rg.start..s.k.rg.start + s.k.rg.used])
            else s.b,
            if s.k.rg.RClear? then Spawn(s.w, DataThenSpace) else s.w)
    case DropRead => s.(k := s.k.(rip := false, rg := NoRead), w := Spawn(s.w, LastData))
    case TaskStep(id) => s.(w := StepTask(s.w, id))
  }

  // ---------------- shape: what makes every step well defined ----------------

  predicate WriteInside(k: Core) {
    match k.wg
    case NoWrite => true
    case WClear => true
    case WHeld(start, len) => start + len <= k.cap
    case WLoad(start, len, used) => used <= len && start + len <= k.cap
    case WLast(start, len, used, _) => used <= len && start + len <= k.cap
    case WPublish(start, len, used) => used <= len && start + len <= k.cap
  }

  predicate ReadInside(k: Core) {
    match k.rg
    case NoRead => true
    case RClear => true
    case RHeld(start, len) => start + len <= k.cap
    case RLoad(start, len, used) => used <= len && start + len <= k.cap
    case RStore(start, len, used, _) => used <= len && start + len <= k.cap
  }

  ghost predicate Shape(s: State) {
    && |s.b.buf| == s.k.cap
    && WriteInside(s.k) && ReadInside(s.k)
    && (s.k.p.PArm? <==> !AtRest(s.w.space))
    && (s.k.c.CArm? <==> !AtRest(s.w.data))
    && (forall id :: id in s.w.tasks ==> Running(s.w, id))
  }

  ghost predicate Next(s: State, s': State) {
    Shape(s) && exists a :: Enabled(s, a) && s' == Apply(s, a)
  }

  ghost predicate IsRun(run: seq<State>) {
    && |run| > 0
    && Init(run[0])
    && forall i :: 0 <= i < |run| - 1 ==> Next(run[i], run[i + 1])
  }
}

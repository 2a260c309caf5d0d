/**
 The single-producer single-consumer ring: wrapping shared indices, a cached
 copy of the peer's index on each side, and an arm/re-check wakeup.

 Both halves follow the same sequence of accesses, so one program-counter type
 and one step function serve both.  A single push or pop is a slice of one.
 */
module RingBuf {
  import opened Wrappers
  import opened WordArithmetic
  import opened Notify

  /** Identity of an item; the ring never looks inside. */
  type Item = nat

  /**
   A bare `try_` call; the synchronous attempt that opens an async call; the
   first attempt of a poll; the attempt after arming.
   */
  datatype Attempt = Direct | Initial | First(w: Waker) | Recheck

  /** The next action of a half; `left` items are still to be moved and `k` are being moved now. */
  datatype Pc =
    | Idle
    | Try(left: nat, att: Attempt)
    | Reload(left: nat, att: Attempt)
    | Copy(left: nat, att: Attempt, k: nat)
    | CopyRest(left: nat, att: Attempt, k: nat)
    | Publish(left: nat, att: Attempt, k: nat)
    | Signal(left: nat, att: Attempt)
    | Future(left: nat)
    | Arm(left: nat)
    | Disarming
    | Parked(left: nat)

  /**
   Indices as the machine holds them (`write`, `read`, and the cached `pr` of the
   producer and `cw` of the consumer), with the unbounded counts they stand for.
   */
  datatype Core = Core(
    e: nat, write: nat, read: nat, pr: nat, cw: nat,
    written: nat, taken: nat, prSeen: nat, cwSeen: nat,
    p: Pc, c: Pc)

  function Cap(k: Core): nat {
    Pow2(k.e)
  }

  /**
   Slots, the histories of both ends, and the calls in progress: `items` is what
   the current push was given (it began when `pbase` items had been published),
   `want` the number of items the current pop was asked for, `got` what it has
   returned so far, `held` what it has just copied.
   */
  datatype Data = Data(
    buf: seq<Item>, sent: seq<Item>, out: seq<Item>,
    items: seq<Item>, pbase: nat, pprogress: nat,
    want: nat, got: seq<Item>, held: seq<Item>, cbase: nat, cprogress: nat)

  /** The producer waits on `pslot` and signals `cslot`; the consumer the other way round. */
  datatype State = State(k: Core, d: Data, pslot: Slot, cslot: Slot)

  ghost predicate Init(s: State) {
    && s.k.e < 64
    && s.k == Core(s.k.e, 0, 0, 0, 0, 0, 0, 0, 0, Idle, Idle)
    && |s.d.buf| == Cap(s.k)
    && s.d == Data(s.d.buf, [], [], [], 0, 0, 0, [], [], 0, 0)
    && s.pslot == NewSlot() && s.cslot == NewSlot()
  }

  // ---------------- one half ----------------

  /** What follows an attempt that leaves `left` items. */
  function Settle(left: nat, att: Attempt): Pc {
    if left == 0 then (if att.Recheck? then Disarming else Idle)
    else match att
      case Direct => Idle
      case Initial => Future(left)
      case First(_) => Arm(left)
      case Recheck => Parked(left)
  }

  /**
   One action of a half: `room` items can move according to the cached index,
   `actual` according to the shared one; `split` says that the copy wraps; `done`
   says that the call being executed (`arm` or `signal`) has returned.
   */
  function StepHalf(pc: Pc, room: nat, actual: nat, split: bool, done: bool): Pc {
    match pc
    case Idle => pc
    case Future(_) => pc
    case Parked(_) => pc
    case Try(left, att) =>
      if left == 0 then Settle(0, att)
      else if room == 0 then Reload(left, att)
      else Copy(left, att, Min(left, room))
    case Reload(left, att) =>
      if actual == 0 then Settle(left, att) else Copy(left, att, Min(left, actual))
    case Copy(left, att, k) => if split then CopyRest(left, att, k) else Publish(left, att, k)
    case CopyRest(left, att, k) => Publish(left, att, k)
    case Publish(left, att, k) => if k <= left then Signal(left - k, att) else pc
    case Signal(left, att) => if done then Settle(left, att) else pc
    case Arm(left) => if done then Try(left, Recheck) else pc
    case Disarming => Idle
  }

  predicate Steps(pc: Pc) {
    !pc.Idle? && !pc.Future? && !pc.Parked?
  }

  /** The slot a half waits on, after its own action. */
  function OwnSlot(slot: Slot, pc: Pc, pc': Pc): Slot
    requires pc.Arm? <==> !AtRest(slot)
  {
    if pc.Arm? then StepArm(slot)
    else if pc.Disarming? then Disarm(slot)
    else if pc'.Arm? && (pc.Reload? || pc.Signal?) && pc.att.First? then BeginArm(slot, pc.att.w)
    else slot
  }

  /** The slot a half signals, after its own action; there is one signaller, number 0. */
  function PeerSlot(slot: Slot, pc: Pc): Slot
    requires pc.Signal? ==> 0 in slot.signals
  {
    if pc.Publish? then BeginSignal(slot, 0)
    else if pc.Signal? then StepSignal(slot, 0)
    else slot
  }

  /** The call that a half is executing returns with its next action. */
  predicate Returns(own: Slot, peer: Slot, pc: Pc)
    requires pc.Arm? <==> !AtRest(own)
    requires pc.Signal? ==> 0 in peer.signals
  {
    (pc.Arm? && AtRest(StepArm(own))) || (pc.Signal? && 0 !in StepSignal(peer, 0).signals)
  }

  // ---------------- indices ----------------

  predicate Words(k: Core) {
    k.e < 64 && k.write < WORD && k.read < WORD && k.pr < WORD && k.cw < WORD
  }

  /** Free slots as the producer computes them from some read index. */
  function Room(k: Core, read: nat): nat
    requires Words(k) && read < WORD
  {
    SatSub(Cap(k), WrapSub(k.write, read))
  }

  /** Items as the consumer computes them from some write index. */
  function Ready(k: Core, write: nat): nat
    requires Words(k) && write < WORD
  {
    WrapSub(write, k.read)
  }

  /** The masked slot of an index, and how far a copy of `n` items runs before it wraps. */
  function SlotOf(k: Core, index: nat): nat {
    BitAnd(index, Cap(k) - 1)
  }

  function Contiguous(k: Core, index: nat, n: nat): nat {
    Min(SatSub(Cap(k), SlotOf(k, index)), n)
  }

  function StepProducer(k: Core, done: bool): Core
    requires Words(k)
  {
    var p := StepHalf(k.p, Room(k, k.pr), Room(k, k.read),
                      k.p.Copy? && Contiguous(k, k.write, k.p.k) < k.p.k, done);
    match k.p
    case Reload(_, _) => k.(p := p, pr := k.read, prSeen := k.taken)
    case Publish(_, _, n) => k.(p := p, write := Wrap(k.write + n), written := k.written + n)
    case _ => k.(p := p)
  }

  function StepConsumer(k: Core, done: bool): Core
    requires Words(k)
  {
    var c := StepHalf(k.c, Ready(k, k.cw), Ready(k, k.write),
                      k.c.Copy? && Contiguous(k, k.read, k.c.k) < k.c.k, done);
    match k.c
    case Reload(_, _) => k.(c := c, cw := k.write, cwSeen := k.written)
    case Publish(_, _, n) => k.(c := c, read := Wrap(k.read + n), taken := k.taken + n)
    case _ => k.(c := c)
  }

  // ---------------- slots and histories ----------------

  function Splice(buf: seq<Item>, at: nat, part: seq<Item>): seq<Item>
    requires at + |part| <= |buf|
  {
    buf[..at] + part + buf[at + |part|..]
  }

  /** The items that the current push moves next. */
  function Batch(k: Core, d: Data): seq<Item>
    requires Shape(k, d) && (k.p.Copy? || k.p.CopyRest? || k.p.Publish?)
  {
    var done := |d.items| - k.p.left;
    d.items[done..done + k.p.k]
  }

  /**
   The steps that record the items moved so far in the caller's cell: entering
   `Future`, `Arm` or `Parked`, and the return of an initial attempt that moved
   everything.  A poll that completes the call returns without recording.
   */
  predicate Reports(pc: Pc, pc': Pc) {
    !pc.Arm? && (pc'.Future? || pc'.Arm? || pc'.Parked? || (pc.Signal? && pc.att.Initial? && pc'.Idle?))
  }

  /** The items a half has still to move. */
  function Remaining(pc: Pc): nat {
    if pc.Idle? || pc.Disarming? then 0 else pc.left
  }

  function ProducerData(k: Core, d: Data, p': Pc): Data
    requires Shape(k, d)
  {
    if k.p.Copy? then
      d.(buf := Splice(d.buf, SlotOf(k, k.write), Batch(k, d)[..Contiguous(k, k.write, k.p.k)]))
    else if k.p.CopyRest? then
      d.(buf := Splice(d.buf, 0, Batch(k, d)[Contiguous(k, k.write, k.p.k)..]))
    else if k.p.Publish? then d.(sent := d.sent + Batch(k, d))
    else if Reports(k.p, p') && Remaining(p') <= |d.items| then d.(pprogress := |d.items| - Remaining(p'))
    else d
  }

  function ConsumerData(k: Core, d: Data, c': Pc): Data
    requires Shape(k, d)
  {
    if k.c.Copy? then
      d.(held := d.buf[SlotOf(k, k.read)..SlotOf(k, k.read) + Contiguous(k, k.read, k.c.k)])
    else if k.c.CopyRest? then d.(held := d.held + d.buf[..k.c.k - Contiguous(k, k.read, k.c.k)])
    else if k.c.Publish? then d.(out := d.out + d.held, got := d.got + d.held)
    else if Reports(k.c, c') then d.(cprogress := |d.got|)
    else d
  }

  /** Every copy stays inside the buffer and inside the caller's slice. */
  predicate Shape(k: Core, d: Data) {
    && Words(k)
    && |d.buf| == Cap(k)
    && SlotOf(k, k.write) < Cap(k) && SlotOf(k, k.read) < Cap(k)
    && (k.p.Copy? || k.p.CopyRest? || k.p.Publish? ==> k.p.k <= k.p.left <= |d.items| && k.p.k <= Cap(k))
    && (k.c.Copy? || k.c.CopyRest? || k.c.Publish? ==> k.c.k <= k.c.left && k.c.k <= Cap(k))
  }

  // ---------------- the step relation ----------------

  datatype Action =
    | StartPush(items: seq<Item>, wait: bool)
    | PollPush(w: Waker)
    | CancelPush
    | RefreshProducer
    | ProducerStep
    | StartPop(n: nat, wait: bool)
    | PollPop(w: Waker)
    | CancelPop
    | RefreshConsumer
    | ConsumerStep

  predicate Enabled(s: State, a: Action) {
    match a
    case StartPush(_, _) => s.k.p.Idle?
    case PollPush(_) => s.k.p.Future? || s.k.p.Parked?
    case CancelPush => s.k.p.Future? || s.k.p.Parked?
    case RefreshProducer => s.k.p.Idle?
    case ProducerStep => Steps(s.k.p)
    case StartPop(_, _) => s.k.c.Idle?
    case PollPop(_) => s.k.c.Future? || s.k.c.Parked?
    case CancelPop => s.k.c.Future? || s.k.c.Parked?
    case RefreshConsumer => s.k.c.Idle?
    case ConsumerStep => Steps(s.k.c)
  }

  predicate Linked(s: State) {
    && (s.k.p.Arm? <==> !AtRest(s.pslot))
    && (s.k.c.Arm? <==> !AtRest(s.cslot))
    && (s.k.p.Signal? ==> 0 in s.cslot.signals)
    && (s.k.c.Signal? ==> 0 in s.pslot.signals)
  }

  function Apply(s: State, a: Action): State
    requires Shape(s.k, s.d) && Linked(s) && Enabled(s, a)
  {
    match a
    case StartPush(items, wait) =>
      if wait && items == [] then s.(d := s.d.(items := [], pbase := |s.d.sent|, pprogress := 0))
      else s.(k := s.k.(p := Try(|items|, if wait then Initial else Direct)),
         d := s.d.(items := items, pbase := |s.d.sent|))
    case PollPush(w) => s.(k := s.k.(p := Try(s.k.p.left, First(w))))
    case CancelPush => s.(k := s.k.(p := Idle))
    case RefreshProducer => s.(k := s.k.(pr := s.k.read, prSeen := s.k.taken))
    case ProducerStep =>
      var k := StepProducer(s.k, Returns(s.pslot, s.cslot, s.k.p));
      State(k, ProducerData(s.k, s.d, k.p), OwnSlot(s.pslot, s.k.p, k.p), PeerSlot(s.cslot, s.k.p))
    case StartPop(n, wait) =>
      if wait && n == 0 then s.(d := s.d.(want := 0, got := [], cbase := |s.d.out|, cprogress := 0))
      else s.(k := s.k.(c := Try(n, if wait then Initial else Direct)),
         d := s.d.(want := n, got := [], cbase := |s.d.out|))
    case PollPop(w) => s.(k := s.k.(c := Try(s.k.c.left, First(w))))
    case CancelPop => s.(k := s.k.(c := Idle))
    case RefreshConsumer => s.(k := s.k.(cw := s.k.write, cwSeen := s.k.written))
    case ConsumerStep =>
      var k := StepConsumer(s.k, Returns(s.cslot, s.pslot, s.k.c));
      State(k, ConsumerData(s.k, s.d, k.c), PeerSlot(s.pslot, s.k.c), OwnSlot(s.cslot, s.k.c, k.c))
  }

  ghost predicate Next(s: State, s': State) {
    Shape(s.k, s.d) && Linked(s) && exists a :: Enabled(s, a) && s' == Apply(s, a)
  }

  ghost predicate IsRun(run: seq<State>) {
    && |run| > 0
    && Init(run[0])
    && forall i :: 0 <= i < |run| - 1 ==> Next(run[i], run[i + 1])
  }
}

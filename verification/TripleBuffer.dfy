/**
 The triple buffer: three slots, three rotating indices and a generation
 counter that hand whole buffers from one writer to one reader.

 Writer and reader each have a program counter between atomic accesses; after
 the generation bump they overlap.  The caller follows the documented
 contract: it publishes the buffer it holds and gives the previous one back.
 */
module TripleBuffer {
  import opened Wrappers
  import opened WordArithmetic
  import opened Notify

  /** A buffer outside the structure: its identity and its length. */
  datatype Buf = Buf(id: nat, len: nat)

  /** What was published: a buffer, its length and its contents at that moment. */
  datatype Msg = Msg(id: nat, len: nat, payload: nat)

  datatype Mode = Once | First(w: Waker) | Recheck

  /** The writer's next access; `i` and `j` are the slots it read from `writer_idx` and `middle_idx`. */
  datatype WriterPc =
    | WIdle
    | WGen(m: Mode)
    | WLast(m: Mode, g: nat)
    | WLoadW(m: Mode)
    | WLoadM(m: Mode, i: nat)
    | WPut(m: Mode, i: nat, j: nat)
    | WPutLen(m: Mode, i: nat, j: nat, len: nat)
    | WSetW(m: Mode, i: nat, j: nat)
    | WSetM(m: Mode, i: nat, j: nat)
    | WBump(m: Mode, j: nat)
    | WGet(m: Mode, j: nat)
    | WSignal(m: Mode)
    | WArm
    | WDisarm
    | WParked
    | WCancelled    // the future was dropped; the buffer waits on the handle
    | WPanic

  /** The reader's next access; `g` is the generation it observed. */
  datatype ReaderPc =
    | RIdle
    | RGen(m: Mode)
    | RLast(m: Mode, g: nat)
    | RLoadG(m: Mode)
    | RLoadR(m: Mode, g: nat)
    | RLoadM(m: Mode, g: nat, i: nat)
    | RPut(m: Mode, g: nat, i: nat, j: nat)
    | RPutLen(m: Mode, g: nat, i: nat, j: nat)
    | RSetR(m: Mode, g: nat, i: nat, j: nat)
    | RSetM(m: Mode, g: nat, i: nat, j: nat)
    | RGet(m: Mode, g: nat, j: nat)
    | RGetLen(m: Mode, g: nat, j: nat)
    | RCommit(m: Mode, g: nat)
    | RSignal(m: Mode)
    | RArm
    | RDisarm
    | RParked
    | RCancelled
    | RPanic

  /**
   `wbuf` and `rbuf` are the buffers outside the structure on each side, whether
   in the caller's hand, on the handle or inside a call; `data` holds the
   contents of the three buffers.  Three histories: `handed` is what the caller
   gave to each publish that went ahead, `published` what lay in the middle at
   each generation bump, `taken` what each take returned.
   */
  datatype Core = Core(
    bufs: seq<Option<nat>>, lens: seq<nat>, data: seq<nat>,
    widx: nat, ridx: nat, midx: nat, gen: nat, last: nat,
    wbuf: Option<Buf>, rbuf: Option<Buf>,
    w: WriterPc, r: ReaderPc,
    handed: seq<Msg>, published: seq<Msg>, taken: seq<Msg>)

  /** The writer waits on `wslot` and signals `rslot`; the reader the other way round. */
  datatype State = State(k: Core, wslot: Slot, rslot: Slot)

  ghost predicate Init(s: State) {
    && |s.k.data| == 3
    && s.k == Core([None, Some(1), Some(2)], [0, 0, 0], s.k.data, 0, 1, 2, 0, 0,
                   Some(Buf(0, 0)), None, WIdle, RIdle, [], [], [])
    && s.wslot == NewSlot() && s.rslot == NewSlot()
  }

  // ---------------- the writer ----------------

  function WriterRefused(m: Mode): WriterPc {
    match m
    case Once => WIdle
    case First(_) => WArm
    case Recheck => WParked
  }

  /** One access of the writer; `done` says that its `arm` or `signal` call has just returned. */
  function StepWriter(k: Core, done: bool): Core
    requires InRange(k)
  {
    match k.w
    case WIdle => k
    case WParked => k
    case WCancelled => k
    case WPanic => k
    case WGen(m) => k.(w := WLast(m, k.gen))
    case WLast(m, g) => k.(w := if g == k.last then WLoadW(m) else WriterRefused(m))
    case WLoadW(m) => k.(w := WLoadM(m, k.widx))
    case WLoadM(m, i) => k.(w := WPut(m, i, k.midx))
    case WPut(m, i, j) =>
      if k.wbuf.None? then k.(w := WPanic)
      else k.(bufs := k.bufs[i := Some(k.wbuf.value.id)], wbuf := None, w := WPutLen(m, i, j, k.wbuf.value.len),
              handed := if k.wbuf.value.id < 3
                        then k.handed + [Msg(k.wbuf.value.id, k.wbuf.value.len, k.data[k.wbuf.value.id])]
                        else k.handed)
    case WPutLen(m, i, j, len) => k.(lens := k.lens[i := len], w := WSetW(m, i, j))
    case WSetW(m, i, j) => k.(widx := j, w := WSetM(m, i, j))
    case WSetM(m, i, j) => k.(midx := i, w := WBump(m, j))
    case WBump(m, j) =>
      k.(gen := Wrap(k.gen + 1), w := WGet(m, j),
         published := if k.bufs[k.midx].Some? && k.bufs[k.midx].value < 3
                      then k.published + [Msg(k.bufs[k.midx].value, k.lens[k.midx], k.data[k.bufs[k.midx].value])]
                      else k.published)
    case WGet(m, j) =>
      if k.bufs[j].None? then k.(w := WPanic)
      else k.(wbuf := Some(Buf(k.bufs[j].value, 0)), bufs := k.bufs[j := None], w := WSignal(m))
    case WSignal(m) => k.(w := if !done then k.w else if m.Recheck? then WDisarm else WIdle)
    case WArm => k.(w := if done then WGen(Recheck) else WArm)
    case WDisarm => k.(w := WIdle)
  }

  predicate WriterSteps(w: WriterPc) {
    !w.WIdle? && !w.WParked? && !w.WCancelled? && !w.WPanic?
  }

  // ---------------- the reader ----------------

  function ReaderRefused(m: Mode): ReaderPc {
    match m
    case Once => RIdle
    case First(_) => RArm
    case Recheck => RParked
  }

  function StepReader(k: Core, done: bool): Core
    requires InRange(k)
  {
    match k.r
    case RIdle => k
    case RParked => k
    case RCancelled => k
    case RPanic => k
    case RGen(m) => k.(r := RLast(m, k.gen))
    case RLast(m, g) => k.(r := if g != k.last then RLoadG(m) else ReaderRefused(m))
    case RLoadG(m) => k.(r := RLoadR(m, k.gen))
    case RLoadR(m, g) => k.(r := RLoadM(m, g, k.ridx))
    case RLoadM(m, g, i) => k.(r := RPut(m, g, i, k.midx))
    case RPut(m, g, i, j) =>
      if k.rbuf.None? then k.(r := RSetR(m, g, i, j))
      else k.(bufs := k.bufs[i := Some(k.rbuf.value.id)], rbuf := None, r := RPutLen(m, g, i, j))
    case RPutLen(m, g, i, j) => k.(lens := k.lens[i := 0], r := RSetR(m, g, i, j))
    case RSetR(m, g, i, j) => k.(ridx := j, r := RSetM(m, g, i, j))
    case RSetM(m, g, i, j) => k.(midx := i, r := RGet(m, g, j))
    case RGet(m, g, j) =>
      if k.bufs[j].None? then k.(r := RPanic)
      else k.(rbuf := Some(Buf(k.bufs[j].value, 0)), bufs := k.bufs[j := None], r := RGetLen(m, g, j))
    case RGetLen(m, g, j) =>
      k.(rbuf := if k.rbuf.Some? then Some(k.rbuf.value.(len := k.lens[j])) else None, r := RCommit(m, g))
    case RCommit(m, g) =>
      k.(last := g, r := RSignal(m),
         taken := if k.rbuf.Some? && k.rbuf.value.id < 3
                  then k.taken + [Msg(k.rbuf.value.id, k.rbuf.value.len, k.data[k.rbuf.value.id])]
                  else k.taken)
    case RSignal(m) => k.(r := if !done then k.r else if m.Recheck? then RDisarm else RIdle)
    case RArm => k.(r := if done then RGen(Recheck) else RArm)
    case RDisarm => k.(r := RIdle)
  }

  predicate ReaderSteps(r: ReaderPc) {
    !r.RIdle? && !r.RParked? && !r.RCancelled? && !r.RPanic?
  }

  /** Every slot number in use names a slot. */
  predicate InRange(k: Core) {
    && |k.bufs| == |k.lens| == |k.data| == 3
    && k.widx < 3 && k.ridx < 3 && k.midx < 3
    && (k.w.WPut? || k.w.WPutLen? || k.w.WSetW? || k.w.WSetM? ==> k.w.i < 3 && k.w.j < 3)
    && (k.w.WBump? || k.w.WGet? ==> k.w.j < 3)
    && (k.r.RPut? || k.r.RPutLen? || k.r.RSetR? || k.r.RSetM? ==> k.r.i < 3 && k.r.j < 3)
    && (k.r.RGet? || k.r.RGetLen? ==> k.r.j < 3)
  }

  // ---------------- the slots ----------------

  function WriterOwn(slot: Slot, w: WriterPc, w': WriterPc): Slot
    requires w.WArm? <==> !AtRest(slot)
  {
    if w.WArm? then StepArm(slot)
    else if w.WDisarm? then Disarm(slot)
    else if w.WLast? && w'.WArm? && w.m.First? then BeginArm(slot, w.m.w)
    else slot
  }

  /** The writer signals after it has taken its next buffer. */
  function WriterPeer(slot: Slot, w: WriterPc): Slot
    requires w.WSignal? ==> 0 in slot.signals
  {
    if w.WGet? then BeginSignal(slot, 0)
    else if w.WSignal? then StepSignal(slot, 0)
    else slot
  }

  function ReaderOwn(slot: Slot, r: ReaderPc, r': ReaderPc): Slot
    requires r.RArm? <==> !AtRest(slot)
  {
    if r.RArm? then StepArm(slot)
    else if r.RDisarm? then Disarm(slot)
    else if r.RLast? && r'.RArm? && r.m.First? then BeginArm(slot, r.m.w)
    else slot
  }

  function ReaderPeer(slot: Slot, r: ReaderPc): Slot
    requires r.RSignal? ==> 0 in slot.signals
  {
    if r.RCommit? then BeginSignal(slot, 0)
    else if r.RSignal? then StepSignal(slot, 0)
    else slot
  }

  // ---------------- the step relation ----------------

  datatype Action =
    | Fill(payload: nat, len: nat)
    | TryPublish
    | PollPublish(wk: Waker)
    | CancelPublish
    | TakeBackWriter
    | WriterStep
    | TryNext
    | PollNext(wk: Waker)
    | CancelNext
    | TakeBackReader
    | ReaderStep

  predicate Enabled(s: State, a: Action) {
    match a
    case Fill(_, _) => s.k.w.WIdle? && s.k.wbuf.Some? && s.k.wbuf.value.id < 3
    case TryPublish => s.k.w.WIdle?
    case PollPublish(_) => s.k.w.WIdle? || s.k.w.WParked?
    case CancelPublish => s.k.w.WParked?
    case TakeBackWriter => s.k.w.WCancelled?
    case WriterStep => WriterSteps(s.k.w)
    case TryNext => s.k.r.RIdle?
    case PollNext(_) => s.k.r.RIdle? || s.k.r.RParked? || s.k.r.RCancelled?
    case CancelNext => s.k.r.RParked?
    case TakeBackReader => s.k.r.RCancelled?
    case ReaderStep => ReaderSteps(s.k.r)
  }

  predicate Linked(s: State) {
    && InRange(s.k)
    && (s.k.w.WArm? <==> !AtRest(s.wslot))
    && (s.k.r.RArm? <==> !AtRest(s.rslot))
    && (s.k.w.WSignal? ==> 0 in s.rslot.signals)
    && (s.k.r.RSignal? ==> 0 in s.wslot.signals)
  }

  function Apply(s: State, a: Action): State
    requires Linked(s) && Enabled(s, a)
  {
    match a
    case Fill(payload, len) =>
      s.(k := s.k.(data := s.k.data[s.k.wbuf.value.id := payload], wbuf := Some(s.k.wbuf.value.(len := len))))
    case TryPublish => s.(k := s.k.(w := WGen(Once)))
    case PollPublish(wk) => s.(k := s.k.(w := WGen(First(wk))))
    case CancelPublish => s.(k := s.k.(w := WCancelled))
    case TakeBackWriter => s.(k := s.k.(w := WIdle))
    case WriterStep =>
      var done := (s.k.w.WArm? && AtRest(StepArm(s.wslot)))
                  || (s.k.w.WSignal? && 0 !in StepSignal(s.rslot, 0).signals);
      var k := StepWriter(s.k, done);
      State(k, WriterOwn(s.wslot, s.k.w, k.w), WriterPeer(s.rslot, s.k.w))
    case TryNext => s.(k := s.k.(r := RGen(Once)))
    case PollNext(wk) => s.(k := s.k.(r := RGen(First(wk))))
    case CancelNext => s.(k := s.k.(r := RCancelled))
    case TakeBackReader => s.(k := s.k.(r := RIdle))
    case ReaderStep =>
      var done := (s.k.r.RArm? && AtRest(StepArm(s.rslot)))
                  || (s.k.r.RSignal? && 0 !in StepSignal(s.wslot, 0).signals);
      var k := StepReader(s.k, done);
      State(k, ReaderPeer(s.wslot, s.k.r), ReaderOwn(s.rslot, s.k.r, k.r))
  }

  ghost predicate Next(s: State, s': State) {
    Linked(s) && exists a :: Enabled(s, a) && s' == Apply(s, a)
  }

  ghost predicate IsRun(run: seq<State>) {
    && |run| > 0
    && Init(run[0])
    && forall i :: 0 <= i < |run| - 1 ==> Next(run[i], run[i + 1])
  }
}

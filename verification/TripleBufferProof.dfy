/** The inductive invariant of the triple buffer. */
module TripleBufferProof {
  import opened Wrappers
  import opened WordArithmetic
  import opened Notify
  import opened TripleBuffer

  // ---------------- who is rotating ----------------

  predicate Publishing(w: WriterPc) {
    w.WLoadW? || w.WLoadM? || w.WPut? || w.WPutLen? || w.WSetW? || w.WSetM? || w.WBump?
  }

  predicate Taking(r: ReaderPc) {
    r.RLoadG? || r.RLoadR? || r.RLoadM? || r.RPut? || r.RPutLen? || r.RSetR? || r.RSetM? || r.RGet? || r.RGetLen? || r.RCommit?
  }

  /** A published buffer waits for the reader. */
  predicate Unread(k: Core) {
    |k.published| == |k.taken| + 1
  }

  /** The generations count the histories, and at most one side rotates the middle at a time. */
  ghost predicate Turns(k: Core) {
    && (|k.published| == |k.taken| || Unread(k))
    && k.gen == Wrap(|k.published|) && k.last == Wrap(|k.taken|)
    && (Publishing(k.w) ==> !Unread(k))
    && (Taking(k.r) ==> Unread(k))
    && (k.w.WLast? ==> k.w.g == k.gen)
    && (k.r.RLast? ==> k.r.g == k.gen || k.r.g == k.last)
    && ((k.r.RLoadR? || k.r.RLoadM? || k.r.RPut? || k.r.RPutLen? || k.r.RSetR? || k.r.RSetM? || k.r.RGet?
         || k.r.RGetLen? || k.r.RCommit?) ==> k.r.g == k.gen)
    && !k.w.WPanic? && !k.r.RPanic?
  }

  lemma GenerationsDiffer(k: Core)
    requires |k.published| == |k.taken| || Unread(k)
    ensures Wrap(|k.published|) == Wrap(|k.taken|) <==> !Unread(k)
  {
    if Unread(k) {
      WrapSubExact(|k.published|, |k.taken|);
    }
  }

  lemma WrapNext(n: nat)
    ensures Wrap(Wrap(n) + 1) == Wrap(n + 1)
  {
    var q := n / WORD;
    assert n == q * WORD + n % WORD;
    if n % WORD + 1 < WORD {
      ModUnique(n + 1, WORD, q, n % WORD + 1);
    } else {
      assert (q + 1) * WORD == q * WORD + WORD;
      ModUnique(n + 1, WORD, q + 1, 0);
    }
  }

  // ---------------- indices ----------------

  predicate Distinct(a: nat, b: nat, c: nat) {
    a < 3 && b < 3 && c < 3 && a != b && b != c && a != c
  }

  /** The three indices name three slots, but for the instant between the two stores of a rotation. */
  predicate Indices(k: Core) {
    && InRange(k)
    && (if k.w.WSetM? then k.widx == k.midx == k.w.j && Distinct(k.w.i, k.w.j, k.ridx)
        else if k.r.RSetM? then k.ridx == k.midx == k.r.j && Distinct(k.r.i, k.r.j, k.widx)
        else Distinct(k.widx, k.midx, k.ridx))
    && (k.w.WLoadM? || k.w.WPut? || k.w.WPutLen? || k.w.WSetW? ==> k.w.i == k.widx)
    && (k.w.WPut? || k.w.WPutLen? || k.w.WSetW? ==> k.w.j == k.midx)
    && (k.w.WBump? || k.w.WGet? ==> k.w.j == k.widx)
    && (k.r.RLoadM? || k.r.RPut? || k.r.RPutLen? || k.r.RSetR? ==> k.r.i == k.ridx)
    && (k.r.RPut? || k.r.RPutLen? || k.r.RSetR? ==> k.r.j == k.midx)
    && (k.r.RGet? || k.r.RGetLen? ==> k.r.j == k.ridx)
  }

  // ---------------- where the buffers are ----------------

  /** The writer has its buffer outside its slot. */
  predicate WriterHas(w: WriterPc) {
    !w.WPutLen? && !w.WSetW? && !w.WSetM? && !w.WBump? && !w.WGet?
  }

  /** The reader has given its previous buffer back and not yet taken the next. */
  predicate ReaderGave(r: ReaderPc) {
    r.RPutLen? || r.RSetR? || r.RSetM? || r.RGet?
  }

  /** The middle slot is never empty; a side's slot is empty exactly while its buffer is outside. */
  predicate Occupied(k: Core) {
    && InRange(k)
    && (k.wbuf.Some? <==> WriterHas(k.w))
    && (ReaderGave(k.r) ==> k.rbuf.None?)
    && (k.r.RGetLen? || k.r.RCommit? ==> k.rbuf.Some?)
    && (if k.w.WSetM? then k.bufs[k.w.i].Some? && k.bufs[k.w.j].Some? else k.bufs[k.widx].Some? <==> k.wbuf.None?)
    && (if k.r.RSetM? then k.bufs[k.r.i].Some? && k.bufs[k.r.j].Some? else k.bufs[k.ridx].Some? <==> k.rbuf.None?)
    && (!k.w.WSetM? && !k.r.RSetM? ==> k.bufs[k.midx].Some?)
  }

  predicate SlotsApart(a: Option<nat>, b: Option<nat>) {
    a.Some? && b.Some? ==> a.value != b.value
  }

  predicate OutsideApart(k: Core, o: Option<Buf>)
    requires |k.bufs| == 3
  {
    o.Some? ==> o.value.id < 3 && k.bufs[0] != Some(o.value.id) && k.bufs[1] != Some(o.value.id) && k.bufs[2] != Some(o.value.id)
  }

  /** No buffer is in two places. */
  predicate Apart(k: Core) {
    && |k.bufs| == 3
    && (k.bufs[0].Some? ==> k.bufs[0].value < 3)
    && (k.bufs[1].Some? ==> k.bufs[1].value < 3)
    && (k.bufs[2].Some? ==> k.bufs[2].value < 3)
    && SlotsApart(k.bufs[0], k.bufs[1]) && SlotsApart(k.bufs[1], k.bufs[2]) && SlotsApart(k.bufs[0], k.bufs[2])
    && OutsideApart(k, k.wbuf) && OutsideApart(k, k.rbuf)
    && (k.wbuf.Some? && k.rbuf.Some? ==> k.wbuf.value.id != k.rbuf.value.id)
  }

  // ---------------- what is in the middle ----------------

  /** Slot `x` holds message `msg`. */
  predicate Carries(k: Core, x: nat, msg: Msg)
    requires |k.bufs| == |k.lens| == |k.data| == 3 && x < 3
  {
    k.bufs[x] == Some(msg.id) && k.lens[x] == msg.len && msg.id < 3 && k.data[msg.id] == msg.payload
  }

  /** Buffer `b` shows message `msg`. */
  predicate Shows(k: Core, b: Buf, msg: Msg)
    requires |k.data| == 3
  {
    b == Buf(msg.id, msg.len) && msg.id < 3 && k.data[msg.id] == msg.payload
  }

  /** The message that the reader takes next is where the reader will find it, untouched. */
  ghost predicate Waiting(k: Core)
    requires InRange(k) && |k.taken| < |k.published|
  {
    var msg := k.published[|k.taken|];
    if k.r.RGetLen? then k.rbuf.Some? && k.lens[k.r.j] == msg.len && Shows(k, k.rbuf.value.(len := msg.len), msg)
    else if k.r.RCommit? then k.rbuf.Some? && Shows(k, k.rbuf.value, msg)
    else Carries(k, if k.r.RSetM? || k.r.RGet? then k.r.j else k.midx, msg)
  }

  ghost predicate Messages(k: Core) {
    && InRange(k)
    && k.taken <= k.published
    && (Unread(k) ==> Waiting(k))
    && (k.rbuf.Some? && !k.r.RGetLen? && !k.r.RCommit? ==>
          k.taken != [] && Shows(k, k.rbuf.value, k.taken[|k.taken| - 1]))
  }

  /** The writer has put its buffer in the slot and not yet bumped the generation. */
  predicate Delivering(w: WriterPc) {
    w.WPutLen? || w.WSetW? || w.WSetM? || w.WBump?
  }

  /** What lies in the slot on its way to the middle is what the caller handed over. */
  ghost predicate Handed(k: Core) {
    && InRange(k)
    && if Delivering(k.w) then
         && |k.handed| == |k.published| + 1 && k.handed[..|k.published|] == k.published
         && var msg := k.handed[|k.published|]; var x := if k.w.WBump? then k.midx else k.w.i;
         && k.bufs[x] == Some(msg.id) && msg.id < 3 && k.data[msg.id] == msg.payload
         && (if k.w.WPutLen? then k.w.len else k.lens[x]) == msg.len
       else k.handed == k.published
  }

  ghost predicate CoreInv(k: Core) {
    Turns(k) && Indices(k) && Apart(k) && Occupied(k) && Messages(k)
  }

  // ---------------- the writer ----------------

  predicate WriterQuiet(w: WriterPc) {
    w.WGen? || w.WLast? || w.WLoadW? || w.WLoadM? || w.WSignal? || w.WArm? || w.WDisarm?
  }

  lemma WriterQuietInv(k: Core, done: bool)
    requires CoreInv(k) && WriterQuiet(k.w)
    ensures CoreInv(StepWriter(k, done))
  {
    hide Apart, Messages;
    GenerationsDiffer(k);
    var k' := StepWriter(k, done);
    assert k' == k.(w := k'.w);
    WriterFrame(k, k'.w);
  }

  lemma WriterFrame(k: Core, w: WriterPc)
    requires Apart(k) && Messages(k) && InRange(k.(w := w))
    ensures Apart(k.(w := w)) && Messages(k.(w := w))
  {
  }

  lemma WriterTurns(k: Core, done: bool)
    requires Turns(k) && Occupied(k) && Apart(k) && Indices(k) && !WriterQuiet(k.w) && WriterSteps(k.w)
    ensures Turns(StepWriter(k, done))
  {
    hide Wrap;
    GenerationsDiffer(k);
    WrapNext(|k.published|);
  }

  lemma WriterIndices(k: Core, done: bool)
    requires Turns(k) && Indices(k) && Occupied(k) && !WriterQuiet(k.w) && WriterSteps(k.w)
    ensures Indices(StepWriter(k, done))
  {
    hide Wrap;
  }

  lemma WriterPutApart(k: Core, done: bool)
    requires Indices(k) && Apart(k) && Occupied(k) && k.w.WPut?
    ensures Apart(StepWriter(k, done))
  {
  }

  lemma WriterGetApart(k: Core, done: bool)
    requires Indices(k) && Apart(k) && Occupied(k) && k.w.WGet?
    ensures Apart(StepWriter(k, done))
  {
  }

  lemma WriterRestApart(k: Core, done: bool)
    requires Indices(k) && Apart(k) && Occupied(k) && !WriterQuiet(k.w) && !k.w.WPut? && !k.w.WGet?
    ensures Apart(StepWriter(k, done))
  {
  }

  lemma WriterApart(k: Core, done: bool)
    requires Indices(k) && Apart(k) && Occupied(k) && !WriterQuiet(k.w)
    ensures Apart(StepWriter(k, done))
  {
    hide Indices, Apart, Occupied, StepWriter, WriterQuiet;
    if k.w.WPut? {
      WriterPutApart(k, done);
    } else if k.w.WGet? {
      WriterGetApart(k, done);
    } else {
      WriterRestApart(k, done);
    }
  }

  lemma WriterOccupies(k: Core, done: bool)
    requires Turns(k) && Indices(k) && Occupied(k) && !WriterQuiet(k.w) && WriterSteps(k.w)
    ensures Occupied(StepWriter(k, done))
  {
    hide Wrap;
  }

  lemma WriterMessages(k: Core, done: bool)
    requires CoreInv(k) && !WriterQuiet(k.w) && WriterSteps(k.w)
    requires InRange(StepWriter(k, done))
    ensures Messages(StepWriter(k, done))
  {
    hide Wrap;
  }

  /** The message appended at the bump is the one that was handed over. */
  lemma WriterHanded(k: Core, done: bool)
    requires Handed(k) && Indices(k) && Apart(k) && Occupied(k) && WriterSteps(k.w)
    ensures Handed(StepWriter(k, done))
  {
    hide Wrap;
  }

  // ---------------- the reader ----------------

  predicate ReaderQuiet(r: ReaderPc) {
    r.RGen? || r.RLast? || r.RLoadG? || r.RLoadR? || r.RLoadM? || r.RSignal? || r.RArm? || r.RDisarm?
  }

  lemma ReaderQuietInv(k: Core, done: bool)
    requires CoreInv(k) && ReaderQuiet(k.r)
    ensures CoreInv(StepReader(k, done))
  {
    hide Apart, Messages;
    GenerationsDiffer(k);
    var k' := StepReader(k, done);
    assert k' == k.(r := k'.r);
    ReaderFrame(k, k'.r);
  }

  lemma ReaderFrame(k: Core, r: ReaderPc)
    requires Apart(k) && Messages(k) && InRange(k.(r := r))
    requires !k.r.RSetM? && !k.r.RGet? && !k.r.RGetLen? && !k.r.RCommit?
    requires !r.RSetM? && !r.RGet? && !r.RGetLen? && !r.RCommit?
    ensures Apart(k.(r := r)) && Messages(k.(r := r))
  {
  }

  lemma ReaderTurns(k: Core, done: bool)
    requires Turns(k) && Indices(k) && Occupied(k) && Apart(k) && !ReaderQuiet(k.r) && ReaderSteps(k.r)
    ensures Turns(StepReader(k, done))
  {
    hide Wrap;
    GenerationsDiffer(k);
  }

  lemma ReaderIndices(k: Core, done: bool)
    requires Turns(k) && Indices(k) && Occupied(k) && !ReaderQuiet(k.r) && ReaderSteps(k.r)
    ensures Indices(StepReader(k, done))
  {
    hide Wrap;
  }

  lemma ReaderPutApart(k: Core, done: bool)
    requires Indices(k) && Apart(k) && Occupied(k) && k.r.RPut?
    ensures Apart(StepReader(k, done))
  {
  }

  lemma ReaderGetApart(k: Core, done: bool)
    requires Indices(k) && Apart(k) && Occupied(k) && k.r.RGet?
    ensures Apart(StepReader(k, done))
  {
  }

  lemma ReaderRestApart(k: Core, done: bool)
    requires Indices(k) && Apart(k) && Occupied(k) && !ReaderQuiet(k.r) && !k.r.RPut? && !k.r.RGet?
    ensures Apart(StepReader(k, done))
  {
  }

  lemma ReaderApart(k: Core, done: bool)
    requires Indices(k) && Apart(k) && Occupied(k) && !ReaderQuiet(k.r)
    ensures Apart(StepReader(k, done))
  {
    hide Indices, Apart, Occupied, StepReader, ReaderQuiet;
    if k.r.RPut? {
      ReaderPutApart(k, done);
    } else if k.r.RGet? {
      ReaderGetApart(k, done);
    } else {
      ReaderRestApart(k, done);
    }
  }

  lemma ReaderOccupies(k: Core, done: bool)
    requires Turns(k) && Indices(k) && Occupied(k) && !ReaderQuiet(k.r) && ReaderSteps(k.r)
    ensures Occupied(StepReader(k, done))
  {
    hide Wrap;
  }

  lemma ReaderMessages(k: Core, done: bool)
    requires CoreInv(k) && !ReaderQuiet(k.r) && ReaderSteps(k.r)
    requires InRange(StepReader(k, done))
    ensures Messages(StepReader(k, done))
  {
    hide Wrap;
  }

  /** A taking reader finds no publish under way, so it disturbs none. */
  lemma ReaderHanded(k: Core, done: bool)
    requires Handed(k) && Turns(k) && Indices(k) && ReaderSteps(k.r)
    ensures Handed(StepReader(k, done))
  {
    hide Wrap;
    if ReaderQuiet(k.r) {
      assert StepReader(k, done) == k.(r := StepReader(k, done).r);
    } else {
      assert !Delivering(k.w);
    }
  }

  // ---------------- wakeups ----------------

  /** The one signaller has yet to look at the flag. */
  predicate Undecided(slot: Slot) {
    0 in slot.signals && Early(slot.signals[0])
  }

  ghost predicate WriterSlotWired(slot: Slot, w: WriterPc, r: ReaderPc) {
    && SlotInv(slot)
    && (w.WArm? <==> !AtRest(slot))
    && (w.WParked? || ((w.WGen? || w.WLast?) && w.m.Recheck?) ==> slot.wpc.On?)
    && (forall id :: id in slot.signals <==> id == 0 && r.RSignal?)
  }

  ghost predicate ReaderSlotWired(slot: Slot, r: ReaderPc, w: WriterPc) {
    && SlotInv(slot)
    && (r.RArm? <==> !AtRest(slot))
    && (r.RParked? || ((r.RGen? || r.RLast?) && r.m.Recheck?) ==> slot.wpc.On?)
    && (forall id :: id in slot.signals <==> id == 0 && w.WSignal?)
  }

  /** A parked writer with a free middle: the reader has yet to look at the flag. */
  ghost predicate WriterWake(slot: Slot, w: WriterPc, free: bool) {
    slot.armed && w.WParked? && free ==> Undecided(slot)
  }

  /** A parked reader with something to read: the writer has yet to look at the flag. */
  ghost predicate ReaderWake(slot: Slot, k: Core) {
    slot.armed && ((k.r.RLast? && k.r.m.Recheck? && k.r.g != k.gen) || (k.r.RParked? && k.gen != k.last)) ==>
      k.w.WGet? || Undecided(slot)
  }

  ghost predicate WakeAll(s: State) {
    && WriterSlotWired(s.wslot, s.k.w, s.k.r)
    && ReaderSlotWired(s.rslot, s.k.r, s.k.w)
    && WriterWake(s.wslot, s.k.w, s.k.gen == s.k.last)
    && ReaderWake(s.rslot, s.k)
  }

  ghost predicate Inv(s: State) {
    CoreInv(s.k) && Handed(s.k) && WakeAll(s)
  }

  lemma WriterOwnStep(slot: Slot, k: Core, done: bool)
    requires WriterSlotWired(slot, k.w, k.r) && WriterWake(slot, k.w, k.gen == k.last)
    requires Turns(k) && InRange(k) && WriterSteps(k.w)
    requires k.w.WArm? ==> (done <==> AtRest(StepArm(slot)))
    ensures var k' := StepWriter(k, done); var slot' := WriterOwn(slot, k.w, k'.w);
            WriterSlotWired(slot', k'.w, k.r) && WriterWake(slot', k'.w, k'.gen == k'.last)
  {
    hide SlotInv, Wrap;
    if k.w.WArm? {
      StepArmInv(slot);
    } else if k.w.WDisarm? {
      DisarmInv(slot);
    } else if k.w.WLast? && k.w.m.First? {
      BeginArmInv(slot, k.w.m.w);
    }
  }

  lemma WriterPeerStep(slot: Slot, k: Core, done: bool)
    requires ReaderSlotWired(slot, k.r, k.w) && ReaderWake(slot, k) && Indices(k)
    requires Turns(k) && Occupied(k) && WriterSteps(k.w)
    requires k.w.WSignal? ==> (done <==> 0 !in StepSignal(slot, 0).signals)
    ensures var k' := StepWriter(k, done); var slot' := WriterPeer(slot, k.w);
            ReaderSlotWired(slot', k'.r, k'.w) && ReaderWake(slot', k')
  {
    if k.w.WGet? || k.w.WSignal? {
      WriterSignals(slot, k, done);
    } else {
      WriterRotates(slot, k, done);
    }
  }

  lemma WriterSignals(slot: Slot, k: Core, done: bool)
    requires ReaderSlotWired(slot, k.r, k.w) && ReaderWake(slot, k) && Indices(k)
    requires Occupied(k) && (k.w.WGet? || k.w.WSignal?)
    requires k.w.WSignal? ==> (done <==> 0 !in StepSignal(slot, 0).signals)
    ensures var k' := StepWriter(k, done); var slot' := WriterPeer(slot, k.w);
            ReaderSlotWired(slot', k'.r, k'.w) && ReaderWake(slot', k')
  {
    hide SlotInv, Wrap;
    if k.w.WGet? {
      BeginSignalInv(slot, 0);
    } else {
      StepSignalInv(slot, 0);
      OtherSignallersKept(slot, 0);
    }
  }

  lemma WriterRotates(slot: Slot, k: Core, done: bool)
    requires ReaderSlotWired(slot, k.r, k.w) && ReaderWake(slot, k) && InRange(k)
    requires Turns(k) && WriterSteps(k.w) && !k.w.WGet? && !k.w.WSignal?
    ensures var k' := StepWriter(k, done); ReaderSlotWired(slot, k'.r, k'.w) && ReaderWake(slot, k')
  {
    hide SlotInv, Wrap;
  }

  lemma ReaderOwnStep(slot: Slot, k: Core, done: bool)
    requires ReaderSlotWired(slot, k.r, k.w) && ReaderWake(slot, k)
    requires Turns(k) && InRange(k) && ReaderSteps(k.r)
    requires k.r.RArm? ==> (done <==> AtRest(StepArm(slot)))
    ensures var k' := StepReader(k, done); var slot' := ReaderOwn(slot, k.r, k'.r);
            ReaderSlotWired(slot', k'.r, k.w) && ReaderWake(slot', k')
  {
    hide SlotInv, Wrap;
    if k.r.RArm? {
      StepArmInv(slot);
    } else if k.r.RDisarm? {
      DisarmInv(slot);
    } else if k.r.RLast? && k.r.m.First? {
      BeginArmInv(slot, k.r.m.w);
    }
  }

  lemma ReaderPeerStep(slot: Slot, k: Core, done: bool)
    requires WriterSlotWired(slot, k.w, k.r) && WriterWake(slot, k.w, k.gen == k.last) && InRange(k)
    requires Turns(k) && Occupied(k) && ReaderSteps(k.r)
    requires k.r.RSignal? ==> (done <==> 0 !in StepSignal(slot, 0).signals)
    ensures var k' := StepReader(k, done); var slot' := ReaderPeer(slot, k.r);
            WriterSlotWired(slot', k'.w, k'.r) && WriterWake(slot', k'.w, k'.gen == k'.last)
  {
    hide SlotInv, Wrap;
    if k.r.RCommit? {
      BeginSignalInv(slot, 0);
    } else if k.r.RSignal? {
      StepSignalInv(slot, 0);
      OtherSignallersKept(slot, 0);
    }
  }

  lemma WriterCore(k: Core, done: bool)
    requires CoreInv(k) && WriterSteps(k.w)
    ensures CoreInv(StepWriter(k, done))
  {
    if WriterQuiet(k.w) {
      WriterQuietInv(k, done);
    } else {
      WriterTurns(k, done);
      WriterIndices(k, done);
      WriterApart(k, done);
      WriterOccupies(k, done);
      WriterMessages(k, done);
    }
    hide Turns, Indices, Apart, Occupied, Messages, StepWriter;
  }

  lemma ReaderCore(k: Core, done: bool)
    requires CoreInv(k) && ReaderSteps(k.r)
    ensures CoreInv(StepReader(k, done))
  {
    if ReaderQuiet(k.r) {
      ReaderQuietInv(k, done);
    } else {
      ReaderTurns(k, done);
      ReaderIndices(k, done);
      ReaderApart(k, done);
      ReaderOccupies(k, done);
      ReaderMessages(k, done);
    }
    hide Turns, Indices, Apart, Occupied, Messages, StepReader;
  }

  lemma WriterStepInv(s: State)
    requires Inv(s) && Linked(s) && WriterSteps(s.k.w)
    ensures Inv(Apply(s, WriterStep))
  {
    hide Handed, Turns, Indices, Apart, Occupied, Messages, StepWriter, WriterSlotWired, ReaderSlotWired, WriterWake, ReaderWake;
    var done := (s.k.w.WArm? && AtRest(StepArm(s.wslot))) || (s.k.w.WSignal? && 0 !in StepSignal(s.rslot, 0).signals);
    WriterCore(s.k, done);
    WriterHanded(s.k, done);
    WriterOwnStep(s.wslot, s.k, done);
    WriterPeerStep(s.rslot, s.k, done);
    WriterKeepsReader(s.k, done);
  }

  lemma WriterKeepsReader(k: Core, done: bool)
    requires InRange(k)
    ensures StepWriter(k, done).r == k.r
  {
  }

  lemma ReaderKeepsWriter(k: Core, done: bool)
    requires InRange(k)
    ensures StepReader(k, done).w == k.w
  {
  }

  lemma ReaderStepInv(s: State)
    requires Inv(s) && Linked(s) && ReaderSteps(s.k.r)
    ensures Inv(Apply(s, ReaderStep))
  {
    hide Handed, Turns, Indices, Apart, Occupied, Messages, StepReader, WriterSlotWired, ReaderSlotWired, WriterWake, ReaderWake;
    var done := (s.k.r.RArm? && AtRest(StepArm(s.rslot))) || (s.k.r.RSignal? && 0 !in StepSignal(s.wslot, 0).signals);
    ReaderCore(s.k, done);
    ReaderHanded(s.k, done);
    ReaderOwnStep(s.rslot, s.k, done);
    ReaderPeerStep(s.wslot, s.k, done);
    ReaderKeepsWriter(s.k, done);
  }

  lemma InitInv(s: State)
    requires Init(s)
    ensures Inv(s)
  {
    NewSlotInv();
    hide SlotInv;
  }

  lemma InvLinked(s: State)
    requires Inv(s)
    ensures Linked(s)
  {
    hide SlotInv;
  }

  lemma WriterCallInv(s: State, w: WriterPc)
    requires Inv(s) && (s.k.w.WIdle? || s.k.w.WParked? || s.k.w.WCancelled?)
    requires w.WIdle? || w.WCancelled? || (w.WGen? && !w.m.Recheck?)
    ensures Inv(s.(k := s.k.(w := w)))
  {
    hide SlotInv, Apart, Messages, Wrap;
    WriterFrame(s.k, w);
  }

  lemma ReaderCallInv(s: State, r: ReaderPc)
    requires Inv(s) && (s.k.r.RIdle? || s.k.r.RParked? || s.k.r.RCancelled?)
    requires r.RIdle? || r.RCancelled? || (r.RGen? && !r.m.Recheck?)
    ensures Inv(s.(k := s.k.(r := r)))
  {
    hide SlotInv, Apart, Messages, Wrap;
    ReaderFrame(s.k, r);
  }

  /** Filling the writer's buffer touches neither the waiting message nor the reader's buffer. */
  lemma FillInv(s: State, payload: nat, len: nat)
    requires Inv(s) && Linked(s) && Enabled(s, Fill(payload, len))
    ensures Inv(Apply(s, Fill(payload, len)))
  {
    hide SlotInv, Wrap;
  }

  lemma StepInv(s: State, a: Action)
    requires Inv(s) && Linked(s) && Enabled(s, a)
    ensures Inv(Apply(s, a))
  {
    hide Inv, Linked, StepWriter, StepReader, StepSignal, StepArm, WriterOwn, WriterPeer, ReaderOwn, ReaderPeer;
    match a
    case Fill(payload, len) => FillInv(s, payload, len);
    case TryPublish => WriterCallInv(s, WGen(Once));
    case PollPublish(wk) => WriterCallInv(s, WGen(First(wk)));
    case CancelPublish => WriterCallInv(s, WCancelled);
    case TakeBackWriter => WriterCallInv(s, WIdle);
    case WriterStep => WriterStepInv(s);
    case TryNext => ReaderCallInv(s, RGen(Once));
    case PollNext(wk) => ReaderCallInv(s, RGen(First(wk)));
    case CancelNext => ReaderCallInv(s, RCancelled);
    case TakeBackReader => ReaderCallInv(s, RIdle);
    case ReaderStep => ReaderStepInv(s);
  }

  lemma {:induction false} RunInv(run: seq<State>, i: nat)
    requires IsRun(run) && i < |run|
    ensures Inv(run[i])
  {
    hide Inv, Apply, Linked, Init;
    if i == 0 {
      InitInv(run[0]);
    } else {
      RunInv(run, i - 1);
      assert Next(run[i - 1], run[i - 1 + 1]);
      var a :| Enabled(run[i - 1], a) && run[i] == Apply(run[i - 1], a);
      StepInv(run[i - 1], a);
    }
  }
}

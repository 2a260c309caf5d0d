/** The inductive invariant of the ring. */
module RingBufProof {
  import opened WordArithmetic
  import opened Notify
  import opened RingBuf

  // ---------------- counters ----------------

  /** The machine indices stand for the counters, and each cached index lags its peer by no more than allowed. */
  ghost predicate Counters(k: Core) {
    && Words(k)
    && k.write == Wrap(k.written) && k.read == Wrap(k.taken)
    && k.pr == Wrap(k.prSeen) && k.cw == Wrap(k.cwSeen)
    && k.prSeen <= k.taken <= k.cwSeen <= k.written <= k.prSeen + Cap(k)
  }

  lemma CapBelowWord(k: Core)
    requires Words(k)
    ensures Cap(k) < WORD
  {
    WordIsPow2();
    Pow2Splits(k.e, 64);
    Pow2Splits(1, 64 - k.e);
    MulMonotone(2, Pow2(64 - k.e), Pow2(k.e));
  }

  /** Every quantity the code computes from wrapped indices is the true one. */
  lemma QuantitiesExact(k: Core)
    requires Counters(k)
    ensures Room(k, k.pr) == k.prSeen + Cap(k) - k.written
    ensures Room(k, k.read) == k.taken + Cap(k) - k.written
    ensures Ready(k, k.cw) == k.cwSeen - k.taken
    ensures Ready(k, k.write) == k.written - k.taken
    ensures SlotOf(k, k.write) == k.written % Cap(k) < Cap(k)
    ensures SlotOf(k, k.read) == k.taken % Cap(k) < Cap(k)
  {
    CapBelowWord(k);
    WrapSubExact(k.written, k.prSeen);
    WrapSubExact(k.written, k.taken);
    WrapSubExact(k.cwSeen, k.taken);
    SlotOfWrapped(k.written, k.e);
    SlotOfWrapped(k.taken, k.e);
  }

  lemma WrapStep(a: nat, n: nat)
    ensures Wrap(Wrap(a) + n) == Wrap(a + n) < WORD
  {
    var q := a / WORD;
    assert a == q * WORD + a % WORD;
    var b := a % WORD + n;
    assert a + n == q * WORD + b;
    assert b == (b / WORD) * WORD + b % WORD;
    assert q * WORD + (b / WORD) * WORD == (q + b / WORD) * WORD;
    ModUnique(a + n, WORD, q + b / WORD, b % WORD);
  }

  // ---------------- one half ----------------

  predicate Moving(pc: Pc) {
    pc.Copy? || pc.CopyRest? || pc.Publish?
  }

  /**
   What a half may rely on when its cached index leaves `room` items to move:
   above all, whoever has armed has an exhausted cache, so the attempt after
   arming must reload.
   */
  predicate HalfInv(pc: Pc, room: nat) {
    match pc
    case Idle => true
    case Disarming => true
    case Try(left, att) => (!att.Direct? ==> left > 0) && (att.Recheck? ==> room == 0)
    case Reload(left, _) => left > 0 && room == 0
    case Copy(left, _, k) => 0 < k <= left && k <= room && (k < left ==> k == room)
    case CopyRest(left, _, k) => 0 < k <= left && k <= room && (k < left ==> k == room)
    case Publish(left, _, k) => 0 < k <= left && k <= room && (k < left ==> k == room)
    case Signal(left, _) => left > 0 ==> room == 0
    case Future(left) => left > 0
    case Arm(left) => left > 0 && room == 0
    case Parked(left) => left > 0 && room == 0
  }

  /** The room a half sees after its own action. */
  function RoomAfter(pc: Pc, room: nat, actual: nat): nat {
    if pc.Reload? then actual
    else if pc.Publish? && pc.k <= room then room - pc.k
    else room
  }

  lemma HalfStep(pc: Pc, room: nat, actual: nat, split: bool, done: bool)
    requires HalfInv(pc, room)
    ensures HalfInv(StepHalf(pc, room, actual, split, done), RoomAfter(pc, room, actual))
  {
  }

  ghost predicate CoreInv(k: Core) {
    && Counters(k)
    && HalfInv(k.p, k.prSeen + Cap(k) - k.written)
    && HalfInv(k.c, k.cwSeen - k.taken)
  }

  lemma ProducerCore(k: Core, done: bool)
    requires CoreInv(k)
    ensures CoreInv(StepProducer(k, done))
  {
    hide HalfInv, StepHalf, Wrap, WrapSub, BitAnd, Pow2;
    QuantitiesExact(k);
    HalfStep(k.p, Room(k, k.pr), Room(k, k.read), k.p.Copy? && Contiguous(k, k.write, k.p.k) < k.p.k, done);
    if k.p.Publish? {
      WrapStep(k.written, k.p.k);
      PublishFits(k.p, Room(k, k.pr));
    }
  }

  lemma ConsumerCore(k: Core, done: bool)
    requires CoreInv(k)
    ensures CoreInv(StepConsumer(k, done))
  {
    hide HalfInv, StepHalf, Wrap, WrapSub, BitAnd, Pow2;
    QuantitiesExact(k);
    HalfStep(k.c, Ready(k, k.cw), Ready(k, k.write), k.c.Copy? && Contiguous(k, k.read, k.c.k) < k.c.k, done);
    if k.c.Publish? {
      WrapStep(k.taken, k.c.k);
      PublishFits(k.c, Ready(k, k.cw));
    }
  }

  lemma PublishFits(pc: Pc, room: nat)
    requires HalfInv(pc, room) && pc.Publish?
    ensures pc.k <= room
  {
  }

  // ---------------- slots and histories ----------------

  /** The item in the slot of position `i`. */
  function At(buf: seq<Item>, i: nat): Item
    requires |buf| > 0
  {
    buf[i % |buf|]
  }

  /** Unread items sit in their slots, and what came out is what went in first. */
  ghost predicate Stored(k: Core, d: Data) {
    && |d.buf| == Cap(k)
    && |d.sent| == k.written && k.taken <= k.written
    && d.out == d.sent[..k.taken]
    && forall i :: k.taken <= i < k.written ==> At(d.buf, i) == d.sent[i]
  }

  predicate Active(pc: Pc) {
    !pc.Idle? && !pc.Disarming?
  }

  predicate Waiting(pc: Pc) {
    pc.Future? || pc.Arm? || pc.Parked?
  }

  /** An attempt made by a poll of a future. */
  predicate InPoll(pc: Pc) {
    (pc.Try? || pc.Reload? || pc.Copy? || pc.CopyRest? || pc.Publish? || pc.Signal?) && (pc.att.First? || pc.att.Recheck?)
  }

  /** The running push: what it was given splits into what it has published and what is left. */
  ghost predicate PushInv(k: Core, d: Data) {
    Active(k.p) ==>
      && k.p.left <= |d.items|
      && var done := |d.items| - k.p.left;
      && d.pbase + done == |d.sent|
      && d.sent[d.pbase..] == d.items[..done]
      && (Waiting(k.p) ==> d.pprogress == done < |d.items|)
      && (InPoll(k.p) ==> d.pprogress < |d.items|)
  }

  /** The part of a push batch already copied lies in the slots after the last published one. */
  ghost predicate BatchStored(k: Core, d: Data, n: nat)
    requires Shape(k, d) && Moving(k.p)
  {
    forall i :: k.written <= i < k.written + n <= k.written + k.p.k ==> At(d.buf, i) == Batch(k, d)[i - k.written]
  }

  ghost predicate PopInv(k: Core, d: Data) {
    Active(k.c) ==>
      && d.cbase <= |d.out|
      && d.got == d.out[d.cbase..]
      && |d.got| + k.c.left == d.want
      && (Waiting(k.c) ==> d.cprogress == |d.got| < d.want)
      && (InPoll(k.c) ==> d.cprogress < d.want)
  }

  ghost predicate CopyInv(k: Core, d: Data)
    requires Shape(k, d) && |d.sent| == k.written
  {
    && (k.p.CopyRest? ==> BatchStored(k, d, Contiguous(k, k.write, k.p.k)))
    && (k.p.Publish? ==> BatchStored(k, d, k.p.k))
    && (k.c.CopyRest? ==>
          var n := Contiguous(k, k.read, k.c.k);
          n < k.c.k && k.taken + n <= k.written && d.held == d.sent[k.taken..k.taken + n])
    && (k.c.Publish? ==> k.taken + k.c.k <= k.written && d.held == d.sent[k.taken..k.taken + k.c.k])
  }

  lemma SplicePoint(buf: seq<Item>, at: nat, part: seq<Item>, x: nat)
    requires at + |part| <= |buf| && x < |buf|
    ensures |Splice(buf, at, part)| == |buf|
    ensures Splice(buf, at, part)[x] == if at <= x < at + |part| then part[x - at] else buf[x]
  {
  }

  /** Copying a batch of `n` items behind `w` published ones, up to the end of the buffer. */
  lemma FirstCopy(buf: seq<Item>, w: nat, r: nat, batch: seq<Item>, c: nat, i: nat)
    requires |buf| > 0 && r <= w && |batch| <= |buf| && w + |batch| <= r + |buf|
    requires c <= |batch| && w % |buf| + c <= |buf|
    requires r <= i < w + c
    ensures var buf' := Splice(buf, w % |buf|, batch[..c]);
            |buf'| == |buf| && At(buf', i) == if i < w then At(buf, i) else batch[i - w]
  {
    var cap := |buf|;
    SplicePoint(buf, w % cap, batch[..c], i % cap);
    if i < w {
      if w % cap <= i % cap < w % cap + c {
        var j := i % cap - w % cap;
        SlotAfter(w, j, cap);
        SlotsDiffer(i, w + j, cap);
      }
    } else {
      SlotAfter(w, i - w, cap);
    }
  }

  /** Copying the rest of the batch from the start of the buffer. */
  lemma SecondCopy(buf: seq<Item>, w: nat, r: nat, batch: seq<Item>, c: nat, i: nat)
    requires |buf| > 0 && r <= w && |batch| <= |buf| && w + |batch| <= r + |buf|
    requires c < |batch| && w % |buf| + c == |buf|
    requires r <= i < w + |batch|
    ensures var buf' := Splice(buf, 0, batch[c..]);
            |buf'| == |buf| && At(buf', i) == if i < w + c then At(buf, i) else batch[i - w]
  {
    var cap := |buf|;
    SplicePoint(buf, 0, batch[c..], i % cap);
    if i < w + c {
      if i % cap < |batch| - c {
        var j := c + i % cap;
        SlotAfter(w, j, cap);
        SlotsDiffer(i, w + j, cap);
      }
    } else {
      SlotAfter(w, i - w, cap);
    }
  }

  /** Reading `c` slots from position `r` yields the items stored there. */
  lemma FirstRead(buf: seq<Item>, sent: seq<Item>, r: nat, c: nat)
    requires |buf| > 0 && r + c <= |sent| && r % |buf| + c <= |buf|
    requires forall i :: r <= i < r + c ==> At(buf, i) == sent[i]
    ensures buf[r % |buf|..r % |buf| + c] == sent[r..r + c]
  {
    var at := r % |buf|;
    var part := buf[at..at + c];
    forall j | 0 <= j < |part|
      ensures part[j] == sent[r..r + c][j]
    {
      SlotAfter(r, j, |buf|);
      assert At(buf, r + j) == sent[r + j];
    }
  }

  lemma SecondRead(buf: seq<Item>, sent: seq<Item>, r: nat, c: nat, n: nat)
    requires |buf| > 0 && c <= n <= |buf| && r + n <= |sent| && r % |buf| + c == |buf|
    requires forall i :: r <= i < r + n ==> At(buf, i) == sent[i]
    ensures buf[..n - c] == sent[r + c..r + n]
  {
    var part := buf[..n - c];
    forall j | 0 <= j < |part|
      ensures part[j] == sent[r + c..r + n][j]
    {
      SlotAfter(r, c + j, |buf|);
      assert At(buf, r + (c + j)) == sent[r + (c + j)];
    }
  }

  ghost predicate DataInv(k: Core, d: Data) {
    && Shape(k, d)
    && Stored(k, d)
    && PushInv(k, d)
    && PopInv(k, d)
    && CopyInv(k, d)
  }

  /** The invariant bounds every copy, so the next action is well defined. */
  lemma ShapeHolds(k: Core, d: Data)
    requires CoreInv(k) && |d.buf| == Cap(k) && (Moving(k.p) ==> k.p.left <= |d.items|)
    ensures Shape(k, d)
  {
    hide BitAnd;
    QuantitiesExact(k);
  }

  /** A copy that leaves the unread items alone and stores (part of) the batch. */
  lemma BufferChange(k: Core, d: Data, buf: seq<Item>, p: Pc)
    requires DataInv(k, d) && Moving(k.p) && (p.CopyRest? || p.Publish?) && p.left == k.p.left && p.k == k.p.k && p.att == k.p.att
    requires |buf| == |d.buf| && forall i :: k.taken <= i < k.written ==> At(buf, i) == At(d.buf, i)
    requires var n := if p.CopyRest? then Contiguous(k, k.write, k.p.k) else k.p.k;
             forall i :: k.written <= i < k.written + n <= k.written + k.p.k ==> At(buf, i) == Batch(k, d)[i - k.written]
    ensures DataInv(k.(p := p), d.(buf := buf))
  {
    hide At, BitAnd, Pow2, Wrap;
    assert Batch(k.(p := p), d.(buf := buf)) == Batch(k, d);
  }

  lemma ProducerCopies(k: Core, d: Data)
    requires CoreInv(k) && DataInv(k, d) && k.p.Copy?
    ensures var k' := StepProducer(k, false); DataInv(k', ProducerData(k, d, k'.p))
  {
    hide BitAnd, At, Pow2, Splice, WrapSub, Wrap, Stored, PushInv, PopInv, CopyInv;
    QuantitiesExact(k);
    var c := Contiguous(k, k.write, k.p.k);
    var batch := Batch(k, d);
    var k' := StepProducer(k, false);
    var buf := Splice(d.buf, SlotOf(k, k.write), batch[..c]);
    SplicePoint(d.buf, SlotOf(k, k.write), batch[..c], 0);
    forall i | k.taken <= i < k.written + c
      ensures At(buf, i) == if i < k.written then At(d.buf, i) else batch[i - k.written]
    {
      FirstCopy(d.buf, k.written, k.taken, batch, c, i);
    }
    BufferChange(k, d, buf, k'.p);
    assert k' == k.(p := k'.p);
  }

  lemma ProducerCopiesRest(k: Core, d: Data)
    requires CoreInv(k) && DataInv(k, d) && k.p.CopyRest?
    ensures var k' := StepProducer(k, false); DataInv(k', ProducerData(k, d, k'.p))
  {
    hide BitAnd, At, Pow2, Splice, WrapSub, Wrap, Stored, PushInv, PopInv;
    var c := Contiguous(k, k.write, k.p.k);
    var batch := Batch(k, d);
    var k' := StepProducer(k, false);
    var buf := Splice(d.buf, 0, batch[c..]);
    SplicePoint(d.buf, 0, batch[c..], 0);
    if c < k.p.k {
      RestLands(k, d);
    } else {
      assert batch[c..] == [];
      EmptySplice(d.buf);
    }
    hide CopyInv;
    BufferChange(k, d, buf, k'.p);
    assert k' == k.(p := k'.p);
  }

  /** The second copy completes the batch and touches no unread item. */
  lemma RestLands(k: Core, d: Data)
    requires CoreInv(k) && DataInv(k, d) && k.p.CopyRest? && Contiguous(k, k.write, k.p.k) < k.p.k
    ensures var c := Contiguous(k, k.write, k.p.k); var buf := Splice(d.buf, 0, Batch(k, d)[c..]);
            && |buf| == |d.buf|
            && (forall i :: k.taken <= i < k.written ==> At(buf, i) == At(d.buf, i))
            && (forall i :: k.written <= i < k.written + k.p.k ==> At(buf, i) == Batch(k, d)[i - k.written])
  {
    hide BitAnd, At, Pow2, Splice, WrapSub, Wrap, Stored, PushInv, PopInv;
    QuantitiesExact(k);
    var c := Contiguous(k, k.write, k.p.k);
    var batch := Batch(k, d);
    var buf := Splice(d.buf, 0, batch[c..]);
    SplicePoint(d.buf, 0, batch[c..], 0);
    forall i | k.taken <= i < k.written + k.p.k
      ensures At(buf, i) == if i < k.written + c then At(d.buf, i) else batch[i - k.written]
    {
      SecondCopy(d.buf, k.written, k.taken, batch, c, i);
    }
    assert BatchStored(k, d, c);
  }

  lemma EmptySplice(buf: seq<Item>)
    ensures Splice(buf, 0, []) == buf
  {
  }

  lemma PublishStored(k: Core, d: Data)
    requires Stored(k, d) && Shape(k, d) && k.p.Publish? && BatchStored(k, d, k.p.k)
    ensures Stored(k.(written := k.written + k.p.k), d.(sent := d.sent + Batch(k, d)))
  {
    hide At, BitAnd, Pow2;
    var batch := Batch(k, d);
    forall i | k.taken <= i < k.written + k.p.k
      ensures At(d.buf, i) == (d.sent + batch)[i]
    {
      if i >= k.written {
        assert At(d.buf, i) == batch[i - k.written];
      }
    }
  }

  lemma PublishPush(k: Core, d: Data, p: Pc)
    requires PushInv(k, d) && Shape(k, d) && k.p.Publish? && p == Signal(k.p.left - k.p.k, k.p.att)
    ensures PushInv(k.(p := p), d.(sent := d.sent + Batch(k, d)))
  {
    hide BitAnd, Pow2;
    var batch := Batch(k, d);
    var done := |d.items| - k.p.left;
    assert d.items[..done + k.p.k] == d.items[..done] + batch;
    assert (d.sent + batch)[d.pbase..] == d.sent[d.pbase..] + batch;
  }

  lemma ProducerPublishes(k: Core, d: Data)
    requires CoreInv(k) && DataInv(k, d) && k.p.Publish?
    ensures var k' := StepProducer(k, false); DataInv(k', ProducerData(k, d, k'.p))
  {
    hide BitAnd, At, Pow2, Splice, WrapSub, Wrap;
    var k' := StepProducer(k, false);
    var d' := ProducerData(k, d, k'.p);
    PublishStored(k, d);
    PublishPush(k, d, k'.p);
    ProducerCore(k, false);
    ShapeHolds(k', d');
    assert d.sent <= d'.sent;
    hide Stored, PushInv, BatchStored, Counters, HalfInv;
  }

  lemma ProducerBegins(k: Core, d: Data)
    requires CoreInv(k) && DataInv(k, d) && (k.p.Try? || k.p.Reload?)
    ensures var k' := StepProducer(k, false); DataInv(k', ProducerData(k, d, k'.p))
  {
    hide BitAnd, At, Pow2, WrapSub, Wrap, Splice, CopyInv;
    QuantitiesExact(k);
    var k' := StepProducer(k, false);
    HeldFrame(k, d, k', ProducerData(k, d, k'.p));
  }

  lemma ProducerReturns(k: Core, d: Data, done: bool)
    requires Words(k) && DataInv(k, d) && (k.p.Signal? || k.p.Arm? || k.p.Disarming?)
    ensures var k' := StepProducer(k, done); DataInv(k', ProducerData(k, d, k'.p))
  {
    hide BitAnd, At, Pow2, WrapSub, Wrap, Splice, CopyInv;
    var k' := StepProducer(k, done);
    HeldFrame(k, d, k', ProducerData(k, d, k'.p));
  }

  lemma ConsumerCopies(k: Core, d: Data)
    requires CoreInv(k) && DataInv(k, d) && k.c.Copy?
    ensures var k' := StepConsumer(k, false); DataInv(k', ConsumerData(k, d, k'.c))
  {
    hide BitAnd, At, Pow2, WrapSub, Wrap;
    QuantitiesExact(k);
    FirstRead(d.buf, d.sent, k.taken, Contiguous(k, k.read, k.c.k));
  }

  lemma ConsumerCopiesRest(k: Core, d: Data)
    requires CoreInv(k) && DataInv(k, d) && k.c.CopyRest?
    ensures var k' := StepConsumer(k, false); DataInv(k', ConsumerData(k, d, k'.c))
  {
    hide BitAnd, At, Pow2, WrapSub, Wrap;
    QuantitiesExact(k);
    var c := Contiguous(k, k.read, k.c.k);
    SecondRead(d.buf, d.sent, k.taken, c, k.c.k);
    assert d.sent[k.taken..k.taken + c] + d.sent[k.taken + c..k.taken + k.c.k] == d.sent[k.taken..k.taken + k.c.k];
  }

  lemma ReleaseStored(k: Core, d: Data)
    requires Stored(k, d) && k.c.Publish? && k.taken + k.c.k <= k.written && d.held == d.sent[k.taken..k.taken + k.c.k]
    ensures Stored(k.(taken := k.taken + k.c.k), d.(out := d.out + d.held))
  {
    hide At, Pow2;
    assert d.sent[..k.taken + k.c.k] == d.sent[..k.taken] + d.sent[k.taken..k.taken + k.c.k];
  }

  lemma ReleasePop(k: Core, d: Data, c: Pc)
    requires PopInv(k, d) && k.c.Publish? && k.c.k <= k.c.left && |d.held| == k.c.k && c == Signal(k.c.left - k.c.k, k.c.att)
    ensures PopInv(k.(c := c), d.(out := d.out + d.held, got := d.got + d.held))
  {
    assert (d.out + d.held)[d.cbase..] == d.out[d.cbase..] + d.held;
  }

  lemma ConsumerPublishes(k: Core, d: Data)
    requires CoreInv(k) && DataInv(k, d) && k.c.Publish?
    ensures var k' := StepConsumer(k, false); DataInv(k', ConsumerData(k, d, k'.c))
  {
    hide BitAnd, At, Pow2, WrapSub, Wrap, BatchStored;
    var k' := StepConsumer(k, false);
    var d' := ConsumerData(k, d, k'.c);
    ReleaseStored(k, d);
    ReleasePop(k, d, k'.c);
    ConsumerCore(k, false);
    ShapeHolds(k', d');
    CopyFrame(k, d, k', d');
    hide Stored, PopInv, CopyInv, Counters, HalfInv;
  }
  lemma ConsumerTries(k: Core, d: Data)
    requires CoreInv(k) && DataInv(k, d) && k.c.Try?
    ensures var k' := StepConsumer(k, false); DataInv(k', ConsumerData(k, d, k'.c))
  {
    hide BitAnd, At, Pow2, WrapSub, Wrap, Splice, CopyInv;
    QuantitiesExact(k);
    var k' := StepConsumer(k, false);
    CopyFrame(k, d, k', ConsumerData(k, d, k'.c));
  }

  lemma ConsumerReloads(k: Core, d: Data)
    requires CoreInv(k) && DataInv(k, d) && k.c.Reload?
    ensures var k' := StepConsumer(k, false); DataInv(k', ConsumerData(k, d, k'.c))
  {
    hide BitAnd, At, Pow2, WrapSub, Wrap, Splice, CopyInv;
    QuantitiesExact(k);
    var k' := StepConsumer(k, false);
    CopyFrame(k, d, k', ConsumerData(k, d, k'.c));
  }

  lemma ConsumerBegins(k: Core, d: Data)
    requires CoreInv(k) && DataInv(k, d) && (k.c.Try? || k.c.Reload?)
    ensures var k' := StepConsumer(k, false); DataInv(k', ConsumerData(k, d, k'.c))
  {
    if k.c.Try? {
      ConsumerTries(k, d);
    } else {
      ConsumerReloads(k, d);
    }
    hide CoreInv, DataInv, StepConsumer, ConsumerData;
  }

  lemma ConsumerReturns(k: Core, d: Data, done: bool)
    requires Words(k) && DataInv(k, d) && (k.c.Signal? || k.c.Arm? || k.c.Disarming?)
    ensures var k' := StepConsumer(k, done); DataInv(k', ConsumerData(k, d, k'.c))
  {
    hide BitAnd, At, Pow2, WrapSub, Wrap, Splice, CopyInv;
    var k' := StepConsumer(k, done);
    CopyFrame(k, d, k', ConsumerData(k, d, k'.c));
  }

  // ---------------- wakeups ----------------

  /** The half has made the load that decides whether it parks. */
  predicate PastReload(pc: Pc) {
    pc.Parked? || ((Moving(pc) || pc.Signal?) && pc.att.Recheck?)
  }

  /** One half's slot: its waiter, its one signaller, and the store-then-signal discipline. */
  ghost predicate SlotWired(own: Slot, pc: Pc, peer: Pc) {
    && SlotInv(own)
    && (pc.Arm? <==> !AtRest(own))
    && (PastReload(pc) || (pc.Try? && pc.att.Recheck?) || (pc.Reload? && pc.att.Recheck?) ==> own.wpc.On?)
    && (forall id :: id in own.signals <==> id == 0 && peer.Signal?)
  }

  /** If the peer has moved its index since the deciding load, it has yet to look at the flag. */
  ghost predicate WakeInv(own: Slot, pc: Pc, moved: bool) {
    own.armed && PastReload(pc) && moved ==> 0 in own.signals && Early(own.signals[0])
  }

  lemma OwnStepWired(own: Slot, peerSlot: Slot, pc: Pc, peer: Pc, room: nat, actual: nat, split: bool, done: bool)
    requires SlotWired(own, pc, peer) && HalfInv(pc, room) && Steps(pc)
    requires pc.Signal? ==> 0 in peerSlot.signals
    requires done <==> Returns(own, peerSlot, pc)
    ensures var pc' := StepHalf(pc, room, actual, split, done); SlotWired(OwnSlot(own, pc, pc'), pc', peer)
  {
    hide SlotInv;
    var pc' := StepHalf(pc, room, actual, split, done);
    if pc.Arm? {
      StepArmInv(own);
    } else if pc.Disarming? {
      DisarmInv(own);
    } else if pc'.Arm? {
      BeginArmInv(own, pc.att.w);
    }
  }

  lemma OwnStepWake(own: Slot, pc: Pc, room: nat, actual: nat, split: bool, done: bool, moved: bool)
    requires WakeInv(own, pc, moved) && HalfInv(pc, room) && Steps(pc)
    requires pc.Arm? <==> !AtRest(own)
    ensures var pc' := StepHalf(pc, room, actual, split, done);
            WakeInv(OwnSlot(own, pc, pc'), pc', moved && !pc.Reload?)
  {
  }

  lemma PeerStepWired(own: Slot, peerOwn: Slot, pc: Pc, peer: Pc, room: nat, actual: nat, split: bool, done: bool)
    requires SlotWired(own, pc, peer) && HalfInv(peer, room) && Steps(peer)
    requires peer.Arm? <==> !AtRest(peerOwn)
    requires done <==> Returns(peerOwn, own, peer)
    ensures SlotWired(PeerSlot(own, peer), pc, StepHalf(peer, room, actual, split, done))
  {
    hide SlotInv;
    if peer.Publish? {
      BeginSignalInv(own, 0);
    } else if peer.Signal? {
      StepSignalInv(own, 0);
      OtherSignallersKept(own, 0);
    }
  }

  lemma PeerStepWake(own: Slot, pc: Pc, peer: Pc, moved: bool)
    requires WakeInv(own, pc, moved)
    requires peer.Signal? ==> 0 in own.signals
    ensures WakeInv(PeerSlot(own, peer), pc, moved || peer.Publish?)
  {
  }

  // ---------------- the invariant ----------------

  ghost predicate WakeAll(s: State) {
    && SlotWired(s.pslot, s.k.p, s.k.c)
    && SlotWired(s.cslot, s.k.c, s.k.p)
    && WakeInv(s.pslot, s.k.p, s.k.taken != s.k.prSeen)
    && WakeInv(s.cslot, s.k.c, s.k.written != s.k.cwSeen)
  }

  ghost predicate Inv(s: State) {
    && CoreInv(s.k)
    && DataInv(s.k, s.d)
    && WakeAll(s)
  }

  lemma InitInv(s: State)
    requires Init(s)
    ensures Inv(s)
  {
    NewSlotInv();
    hide SlotInv, BitAnd;
    assert CoreInv(s.k);
    QuantitiesExact(s.k);
  }

  lemma ProducerStepInv(s: State)
    requires Inv(s) && Linked(s) && Steps(s.k.p)
    ensures Inv(Apply(s, ProducerStep))
  {
    hide DataInv, SlotWired, WakeInv, HalfInv, StepHalf, OwnSlot, PeerSlot, ProducerData, BitAnd;
    var done := Returns(s.pslot, s.cslot, s.k.p);
    var k' := StepProducer(s.k, done);
    ProducerCore(s.k, done);
    ProducerDataStep(s, done);
    ProducerWakeStep(s, done);
  }

  lemma ProducerDataStep(s: State, done: bool)
    requires CoreInv(s.k) && DataInv(s.k, s.d) && Steps(s.k.p)
    ensures Shape(s.k, s.d)
    ensures var k' := StepProducer(s.k, done); DataInv(k', ProducerData(s.k, s.d, k'.p))
  {
    assert s.k.p.Signal? || s.k.p.Arm? || StepProducer(s.k, done) == StepProducer(s.k, false);
    hide CoreInv, StepProducer, ProducerData, Stored, PushInv, PopInv, CopyInv, Shape;
    if s.k.p.Copy? {
      ProducerCopies(s.k, s.d);
    } else if s.k.p.CopyRest? {
      ProducerCopiesRest(s.k, s.d);
    } else if s.k.p.Publish? {
      ProducerPublishes(s.k, s.d);
    } else if s.k.p.Try? || s.k.p.Reload? {
      ProducerBegins(s.k, s.d);
    } else {
      ProducerReturns(s.k, s.d, done);
    }
  }

  lemma ProducerWakeStep(s: State, done: bool)
    requires CoreInv(s.k) && WakeAll(s) && Linked(s) && Steps(s.k.p)
    requires done <==> Returns(s.pslot, s.cslot, s.k.p)
    ensures var k' := StepProducer(s.k, done);
            WakeAll(State(k', s.d, OwnSlot(s.pslot, s.k.p, k'.p), PeerSlot(s.cslot, s.k.p)))
  {
    QuantitiesExact(s.k);
    hide SlotWired, WakeInv, HalfInv, StepHalf, OwnSlot, PeerSlot, Room, BitAnd;
    var split := s.k.p.Copy? && Contiguous(s.k, s.k.write, s.k.p.k) < s.k.p.k;
    OwnStepWired(s.pslot, s.cslot, s.k.p, s.k.c, Room(s.k, s.k.pr), Room(s.k, s.k.read), split, done);
    OwnStepWake(s.pslot, s.k.p, Room(s.k, s.k.pr), Room(s.k, s.k.read), split, done, s.k.taken != s.k.prSeen);
    PeerStepWired(s.cslot, s.pslot, s.k.c, s.k.p, Room(s.k, s.k.pr), Room(s.k, s.k.read), split, done);
    PeerStepWake(s.cslot, s.k.c, s.k.p, s.k.written != s.k.cwSeen);
    MovedWeakens(PeerSlot(s.cslot, s.k.p), s.k.c, s.k.written != s.k.cwSeen || s.k.p.Publish?,
                 StepProducer(s.k, done).written != s.k.cwSeen);
  }

  lemma ConsumerStepInv(s: State)
    requires Inv(s) && Linked(s) && Steps(s.k.c)
    ensures Inv(Apply(s, ConsumerStep))
  {
    hide DataInv, SlotWired, WakeInv, HalfInv, StepHalf, OwnSlot, PeerSlot, ConsumerData, BitAnd;
    var done := Returns(s.cslot, s.pslot, s.k.c);
    var k' := StepConsumer(s.k, done);
    ConsumerCore(s.k, done);
    ConsumerDataStep(s, done);
    ConsumerWakeStep(s, done);
  }

  lemma ConsumerDataStep(s: State, done: bool)
    requires CoreInv(s.k) && DataInv(s.k, s.d) && Steps(s.k.c)
    ensures Shape(s.k, s.d)
    ensures var k' := StepConsumer(s.k, done); DataInv(k', ConsumerData(s.k, s.d, k'.c))
  {
    assert s.k.c.Signal? || s.k.c.Arm? || StepConsumer(s.k, done) == StepConsumer(s.k, false);
    hide CoreInv, StepConsumer, ConsumerData, Stored, PushInv, PopInv, CopyInv, Shape;
    if s.k.c.Copy? {
      ConsumerCopies(s.k, s.d);
    } else if s.k.c.CopyRest? {
      ConsumerCopiesRest(s.k, s.d);
    } else if s.k.c.Publish? {
      ConsumerPublishes(s.k, s.d);
    } else if s.k.c.Try? || s.k.c.Reload? {
      ConsumerBegins(s.k, s.d);
    } else {
      ConsumerReturns(s.k, s.d, done);
    }
  }

  lemma ConsumerWakeStep(s: State, done: bool)
    requires CoreInv(s.k) && WakeAll(s) && Linked(s) && Steps(s.k.c)
    requires done <==> Returns(s.cslot, s.pslot, s.k.c)
    ensures var k' := StepConsumer(s.k, done);
            WakeAll(State(k', s.d, PeerSlot(s.pslot, s.k.c), OwnSlot(s.cslot, s.k.c, k'.c)))
  {
    QuantitiesExact(s.k);
    hide SlotWired, WakeInv, HalfInv, StepHalf, OwnSlot, PeerSlot, Ready, BitAnd;
    var split := s.k.c.Copy? && Contiguous(s.k, s.k.read, s.k.c.k) < s.k.c.k;
    OwnStepWired(s.cslot, s.pslot, s.k.c, s.k.p, Ready(s.k, s.k.cw), Ready(s.k, s.k.write), split, done);
    OwnStepWake(s.cslot, s.k.c, Ready(s.k, s.k.cw), Ready(s.k, s.k.write), split, done, s.k.written != s.k.cwSeen);
    PeerStepWired(s.pslot, s.cslot, s.k.p, s.k.c, Ready(s.k, s.k.cw), Ready(s.k, s.k.write), split, done);
    PeerStepWake(s.pslot, s.k.p, s.k.c, s.k.taken != s.k.prSeen);
    MovedWeakens(PeerSlot(s.pslot, s.k.c), s.k.p, s.k.taken != s.k.prSeen || s.k.c.Publish?,
                 StepConsumer(s.k, done).taken != s.k.prSeen);
  }

  lemma MovedWeakens(own: Slot, pc: Pc, moved: bool, moved': bool)
    requires WakeInv(own, pc, moved) && (moved' ==> moved)
    ensures WakeInv(own, pc, moved')
  {
  }

  // Starting, polling, cancelling and refreshing a cache keep the invariant.

  lemma ProducerCallCore(s: State, a: Action)
    requires Inv(s) && Linked(s) && Enabled(s, a) && (a.StartPush? || a.PollPush? || a.CancelPush? || a.RefreshProducer?)
    ensures CoreInv(Apply(s, a).k)
  {
    hide BitAnd, Pow2, DataInv, WakeAll;
  }

  /** What the consumer holds does not depend on the producer's side. */
  lemma HeldFrame(k: Core, d: Data, k': Core, d': Data)
    requires Shape(k, d) && |d.sent| == k.written && CopyInv(k, d)
    requires k' == k.(p := k'.p, pr := k'.pr, prSeen := k'.prSeen) && Shape(k', d')
    requires d'.buf == d.buf && d'.sent == d.sent && d'.held == d.held
    requires !k'.p.CopyRest? && !k'.p.Publish?
    ensures CopyInv(k', d')
  {
    hide At, BitAnd, Pow2, BatchStored;
  }

  lemma ProducerCallData(s: State, a: Action)
    requires CoreInv(s.k) && DataInv(s.k, s.d) && Linked(s) && Enabled(s, a) && (a.StartPush? || a.PollPush? || a.CancelPush? || a.RefreshProducer?)
    ensures DataInv(Apply(s, a).k, Apply(s, a).d)
  {
    hide BitAnd, At, Pow2, Splice, Room, Ready, CopyInv, Counters, HalfInv;
    var s' := Apply(s, a);
    HeldFrame(s.k, s.d, s'.k, s'.d);
  }

  lemma ProducerCallWake(s: State, a: Action)
    requires WakeAll(s) && Shape(s.k, s.d) && Linked(s) && Enabled(s, a) && (a.StartPush? || a.PollPush? || a.CancelPush? || a.RefreshProducer?)
    ensures WakeAll(Apply(s, a))
  {
    hide SlotInv, BitAnd, Shape;
  }

  lemma ConsumerCallCore(s: State, a: Action)
    requires Inv(s) && Linked(s) && Enabled(s, a) && (a.StartPop? || a.PollPop? || a.CancelPop? || a.RefreshConsumer?)
    ensures CoreInv(Apply(s, a).k)
  {
    hide BitAnd, Pow2, DataInv, WakeAll;
  }

  /** What the producer has stored does not depend on the consumer's side. */
  lemma CopyFrame(k: Core, d: Data, k': Core, d': Data)
    requires Shape(k, d) && |d.sent| == k.written && CopyInv(k, d)
    requires k'.e == k.e && k'.p == k.p && k'.write == k.write && k'.written == k.written && Shape(k', d')
    requires d'.buf == d.buf && d'.sent == d.sent && d'.items == d.items
    requires !k'.c.CopyRest? && !k'.c.Publish?
    ensures CopyInv(k', d')
  {
    hide At, BitAnd, Pow2;
    if Moving(k.p) {
      assert Batch(k', d') == Batch(k, d);
    }
  }

  lemma StartPopData(s: State, a: Action)
    requires CoreInv(s.k) && DataInv(s.k, s.d) && Linked(s) && Enabled(s, a) && (a.StartPop? || a.RefreshConsumer?)
    ensures DataInv(Apply(s, a).k, Apply(s, a).d)
  {
    hide BitAnd, At, Pow2, Splice, Room, Ready, CopyInv, Counters, HalfInv;
    var s' := Apply(s, a);
    CopyFrame(s.k, s.d, s'.k, s'.d);
  }

  lemma ResumePopData(s: State, a: Action)
    requires CoreInv(s.k) && DataInv(s.k, s.d) && Linked(s) && Enabled(s, a) && (a.PollPop? || a.CancelPop?)
    ensures DataInv(Apply(s, a).k, Apply(s, a).d)
  {
    hide BitAnd, At, Pow2, Splice, Room, Ready, CopyInv, Counters, HalfInv;
    var s' := Apply(s, a);
    CopyFrame(s.k, s.d, s'.k, s'.d);
  }

  lemma ConsumerCallData(s: State, a: Action)
    requires CoreInv(s.k) && DataInv(s.k, s.d) && Linked(s) && Enabled(s, a) && (a.StartPop? || a.PollPop? || a.CancelPop? || a.RefreshConsumer?)
    ensures DataInv(Apply(s, a).k, Apply(s, a).d)
  {
    if a.StartPop? || a.RefreshConsumer? {
      StartPopData(s, a);
    } else {
      ResumePopData(s, a);
    }
    hide CoreInv, DataInv, Linked, Apply;
  }

  lemma ConsumerCallWake(s: State, a: Action)
    requires WakeAll(s) && Shape(s.k, s.d) && Linked(s) && Enabled(s, a) && (a.StartPop? || a.PollPop? || a.CancelPop? || a.RefreshConsumer?)
    ensures WakeAll(Apply(s, a))
  {
    hide SlotInv, BitAnd, Shape;
  }

  lemma CallInv(s: State, a: Action)
    requires Inv(s) && Shape(s.k, s.d) && Linked(s) && Enabled(s, a) && !a.ProducerStep? && !a.ConsumerStep?
    ensures Inv(Apply(s, a))
  {
    hide CoreInv, DataInv, WakeAll, Apply, Shape, Linked;
    if a.StartPush? || a.PollPush? || a.CancelPush? || a.RefreshProducer? {
      ProducerCallCore(s, a);
      ProducerCallData(s, a);
      ProducerCallWake(s, a);
    } else {
      ConsumerCallCore(s, a);
      ConsumerCallData(s, a);
      ConsumerCallWake(s, a);
    }
  }

  lemma InvLinked(s: State)
    requires Inv(s)
    ensures Shape(s.k, s.d) && Linked(s)
  {
    hide SlotInv, BitAnd, CoreInv, Stored, PushInv, PopInv, CopyInv;
  }

  lemma StepInv(s: State, a: Action)
    requires Inv(s) && Shape(s.k, s.d) && Linked(s) && Enabled(s, a)
    ensures Inv(Apply(s, a))
  {
    hide Inv, Apply, Linked;
    match a
    case ProducerStep => ProducerStepInv(s);
    case ConsumerStep => ConsumerStepInv(s);
    case _ => CallInv(s, a);
  }

  lemma {:induction false} RunInv(run: seq<State>, i: nat)
    requires IsRun(run) && i < |run|
    ensures Inv(run[i])
  {
    hide Inv, Apply, Linked, Init, Shape;
    if i == 0 {
      InitInv(run[0]);
    } else {
      RunInv(run, i - 1);
      assert Next(run[i - 1], run[i - 1 + 1]);
      var a :| Enabled(run[i - 1], a) && run[i] == Apply(run[i - 1], a);
      StepInv(run[i - 1], a);
    }
  }
}

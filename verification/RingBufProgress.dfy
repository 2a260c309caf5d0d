/**
 The progress cell of a counted slice transfer when the call completes: exactly
 when it is up to date, judged by what the caller can see as it makes the call.
 */
module RingBufProgress {
  import opened Wrappers
  import opened WordArithmetic
  import opened Notify
  import opened RingBuf
  import opened RingBufProof
  import opened RingBufTheorems

  // ---------------- one call, from its opening attempt on ----------------

  /**
   Where a half can stand in a waiting call for `n` items whose opening attempt
   found `opening` of them movable.
   */
  predicate Opened(pc: Pc, room: nat, n: nat, opening: nat) {
    match pc
    case Idle => false
    case Try(left, att) =>
      if att.Initial? then left == n && room == opening && opening > 0 else !att.Direct? && opening < n
    case Reload(_, att) => !att.Initial? && !att.Direct? && opening < n
    case Copy(left, att, k) => Carried(left, att, k, n, opening)
    case CopyRest(left, att, k) => Carried(left, att, k, n, opening)
    case Publish(left, att, k) => Carried(left, att, k, n, opening)
    case Signal(left, att) =>
      if att.Initial? then left == n - Min(n, opening) else !att.Direct? && opening < n
    case Future(_) => opening < n
    case Arm(_) => opening < n
    case Parked(_) => opening < n
    case Disarming => opening < n
  }

  predicate Carried(left: nat, att: Attempt, k: nat, n: nat, opening: nat) {
    if att.Initial? then left == n && k == Min(n, opening) else !att.Direct? && opening < n
  }

  /** The opening attempt is the one that completes exactly when it could move everything. */
  lemma CompletedBy(pc: Pc, room: nat, n: nat, opening: nat)
    requires Opened(pc, room, n, opening) && pc.Signal? && pc.left == 0 && n > 0
    ensures pc.att.Initial? <==> n <= opening
  {
  }

  // ---------------- pushes ----------------

  /** Free slots as the producer sees them through its cache. */
  function PushRoom(k: Core): nat {
    if Words(k) then Room(k, k.pr) else 0
  }

  /** The opening attempt has yet to look past an exhausted cache. */
  predicate PushOpening(k: Core, n: nat) {
    k.p == Reload(n, Initial) || (k.p == Try(n, Initial) && PushRoom(k) == 0)
  }

  lemma ConsumerKeepsPushRoom(k: Core, done: bool)
    requires Words(k)
    ensures var k' := StepConsumer(k, done); k'.p == k.p && Words(k') && PushRoom(k') == PushRoom(k)
  {
    hide StepHalf, SlotOf, Contiguous;
  }

  lemma ProducerOpened(k: Core, done: bool, n: nat, opening: nat)
    requires Words(k) && Opened(k.p, PushRoom(k), n, opening) && !StepProducer(k, done).p.Idle?
    ensures var k' := StepProducer(k, done); Words(k') && Opened(k'.p, PushRoom(k'), n, opening)
  {
    hide SlotOf, Contiguous;
  }

  /** Whatever moves next, the call stays where its opening attempt put it. */
  lemma OpenedPushStep(s: State, a: Action, opening: nat)
    requires Shape(s.k, s.d) && Linked(s) && Enabled(s, a) && !Apply(s, a).k.p.Idle?
    requires Opened(s.k.p, PushRoom(s.k), |s.d.items|, opening)
    ensures var s' := Apply(s, a);
            Words(s'.k) && s'.d.items == s.d.items && Opened(s'.k.p, PushRoom(s'.k), |s.d.items|, opening)
  {
    hide SlotOf, Contiguous, StepArm, StepSignal, Splice, Batch, StepHalf;
    if a.ConsumerStep? {
      ConsumerKeepsPushRoom(s.k, Returns(s.cslot, s.pslot, s.k.c));
      hide StepConsumer;
    } else if a.ProducerStep? {
      ProducerOpened(s.k, Returns(s.pslot, s.cslot, s.k.p), |s.d.items|, opening);
      hide StepProducer;
    }
  }

  lemma PushOpeningStep(s: State, a: Action)
    requires Shape(s.k, s.d) && Linked(s) && Enabled(s, a) && !Apply(s, a).k.p.Idle?
    requires PushOpening(s.k, |s.d.items|) && |s.d.items| > 0
    ensures var s' := Apply(s, a);
            && Words(s.k) && Words(s'.k) && s'.d.items == s.d.items
            && (PushOpening(s'.k, |s.d.items|)
                || (s.k.p.Reload? && Opened(s'.k.p, PushRoom(s'.k), |s.d.items|, Room(s.k, s.k.read))))
  {
    hide SlotOf, Contiguous, StepArm, StepSignal, Splice, Batch;
    if a.ConsumerStep? {
      ConsumerKeepsPushRoom(s.k, Returns(s.cslot, s.pslot, s.k.c));
      hide StepHalf, StepConsumer;
    }
  }

  /** The call that is under way at `j` is still under way at `i`. */
  ghost predicate PushLasts(run: seq<State>, j: nat, i: nat) {
    j <= i < |run| && forall m :: j <= m <= i ==> !run[m].k.p.Idle?
  }

  lemma {:induction false} PushStaysOpened(run: seq<State>, j: nat, i: nat, opening: nat)
    requires IsRun(run) && PushLasts(run, j, i)
    requires Opened(run[j].k.p, PushRoom(run[j].k), |run[j].d.items|, opening)
    ensures run[i].d.items == run[j].d.items
    ensures Opened(run[i].k.p, PushRoom(run[i].k), |run[j].d.items|, opening)
    decreases i
  {
    hide Apply, Shape, Linked, Init, Opened, PushRoom;
    if j < i {
      PushStaysOpened(run, j, i - 1, opening);
      assert Next(run[i - 1], run[i - 1 + 1]);
      var a :| Enabled(run[i - 1], a) && run[i] == Apply(run[i - 1], a);
      OpenedPushStep(run[i - 1], a, opening);
    }
  }

  /** At `l` the opening attempt for `n` items loads the shared index. */
  ghost predicate PushLoadsAt(run: seq<State>, l: nat, n: nat) {
    l + 1 < |run| && run[l].k.p == Reload(n, Initial) && run[l + 1].k.p != run[l].k.p && Words(run[l].k)
  }

  /** An exhausted cache sends the opening attempt to the shared index, and what it finds there decides. */
  lemma {:induction false} PushFindsOpening(run: seq<State>, j: nat, i: nat)
    requires IsRun(run) && PushLasts(run, j, i) && |run[j].d.items| > 0 && PushOpening(run[j].k, |run[j].d.items|)
    ensures run[i].d.items == run[j].d.items
    ensures PushOpening(run[i].k, |run[j].d.items|)
            || exists l :: j <= l < i && PushLoadsAt(run, l, |run[j].d.items|)
                           && Opened(run[i].k.p, PushRoom(run[i].k), |run[j].d.items|, Room(run[l].k, run[l].k.read))
    decreases i
  {
    hide Apply, Shape, Linked, Init, PushRoom, Room, Opened;
    if j < i {
      var n := |run[j].d.items|;
      PushFindsOpening(run, j, i - 1);
      assert Next(run[i - 1], run[i - 1 + 1]);
      var a :| Enabled(run[i - 1], a) && run[i] == Apply(run[i - 1], a);
      if PushOpening(run[i - 1].k, n) {
        PushOpeningStep(run[i - 1], a);
        if !PushOpening(run[i].k, n) {
          assert PushLoadsAt(run, i - 1, n);
        }
      } else {
        var l :| j <= l < i - 1 && PushLoadsAt(run, l, n)
                 && Opened(run[i - 1].k.p, PushRoom(run[i - 1].k), n, Room(run[l].k, run[l].k.read));
        OpenedPushStep(run[i - 1], a, Room(run[l].k, run[l].k.read));
      }
    }
  }

  /** The step from `s` to `s'` starts a counted push of `items`. */
  ghost predicate StartsPush(s: State, s': State, items: seq<Item>) {
    Shape(s.k, s.d) && Linked(s) && Enabled(s, StartPush(items, true)) && s' == Apply(s, StartPush(items, true))
  }

  lemma PushStarted(s: State, s': State, items: seq<Item>)
    requires StartsPush(s, s', items) && !s'.k.p.Idle?
    ensures s'.k.p == Try(|items|, Initial) && |items| > 0 && PushRoom(s'.k) == PushRoom(s.k) && |s'.d.items| == |items|
    ensures PushRoom(s.k) > 0 ==> Opened(s'.k.p, PushRoom(s'.k), |items|, PushRoom(s.k))
  {
    hide StepProducer, StepConsumer;
  }

  /**
   A counted push that starts at `j` and completes at `i`: with something visible
   in the cache, its cell is up to date at completion if and only if all it was
   asked for was visible at the start; with an exhausted cache, if and only if
   all of it was there when the opening attempt loaded the shared index.
   */
  lemma PushCellExactIff(run: seq<State>, j: nat, i: nat, items: seq<Item>)
    requires IsRun(run) && j < i && i + 1 < |run|
    requires StartsPush(run[j], run[j + 1], items) && PushLasts(run, j + 1, i)
    requires Completes(run[i].k.p, run[i + 1].k.p)
    ensures PushRoom(run[j].k) > 0 ==> (run[i + 1].d.pprogress == |items| <==> |items| <= PushRoom(run[j].k))
    ensures PushRoom(run[j].k) == 0 ==>
              exists l :: j < l < i && PushLoadsAt(run, l, |items|)
                          && (run[i + 1].d.pprogress == |items| <==> |items| <= Room(run[l].k, run[l].k.read))
  {
    PushProgressAtCompletion(run, i);
    PushCompletionKeeps(run, i);
    PushStarted(run[j], run[j + 1], items);
    hide Apply, Shape, Linked, PushRoom, Room, Opened, IsRun, StartsPush, Next;
    if PushRoom(run[j].k) > 0 {
      PushStaysOpened(run, j + 1, i, PushRoom(run[j].k));
      CompletedBy(run[i].k.p, PushRoom(run[i].k), |items|, PushRoom(run[j].k));
    } else {
      PushFindsOpening(run, j + 1, i);
      var l :| j + 1 <= l < i && PushLoadsAt(run, l, |items|)
               && Opened(run[i].k.p, PushRoom(run[i].k), |items|, Room(run[l].k, run[l].k.read));
      CompletedBy(run[i].k.p, PushRoom(run[i].k), |items|, Room(run[l].k, run[l].k.read));
    }
  }

  lemma PushCompletionKeeps(run: seq<State>, i: nat)
    requires IsRun(run) && i + 1 < |run| && Completes(run[i].k.p, run[i + 1].k.p)
    ensures run[i + 1].d.items == run[i].d.items
  {
    assert Next(run[i], run[i + 1]);
    hide Apply;
    var a :| Enabled(run[i], a) && run[i + 1] == Apply(run[i], a);
    PushReturns(run[i], a);
  }

  // ---------------- pops ----------------

  /** Items as the consumer sees them through its cache. */
  function PopRoom(k: Core): nat {
    if Words(k) then Ready(k, k.cw) else 0
  }

  /** The opening attempt has yet to look past an exhausted cache. */
  predicate PopOpening(k: Core, n: nat) {
    k.c == Reload(n, Initial) || (k.c == Try(n, Initial) && PopRoom(k) == 0)
  }

  lemma ProducerKeepsPopRoom(k: Core, done: bool)
    requires Words(k)
    ensures var k' := StepProducer(k, done); k'.c == k.c && Words(k') && PopRoom(k') == PopRoom(k)
  {
    hide StepHalf, SlotOf, Contiguous;
  }

  lemma ConsumerOpened(k: Core, done: bool, n: nat, opening: nat)
    requires Words(k) && Opened(k.c, PopRoom(k), n, opening) && !StepConsumer(k, done).c.Idle?
    ensures var k' := StepConsumer(k, done); Words(k') && Opened(k'.c, PopRoom(k'), n, opening)
  {
    hide SlotOf, Contiguous;
  }

  /** Whatever moves next, the call stays where its opening attempt put it. */
  lemma OpenedPopStep(s: State, a: Action, opening: nat)
    requires Shape(s.k, s.d) && Linked(s) && Enabled(s, a) && !Apply(s, a).k.c.Idle?
    requires Opened(s.k.c, PopRoom(s.k), s.d.want, opening)
    ensures var s' := Apply(s, a);
            Words(s'.k) && s'.d.want == s.d.want && Opened(s'.k.c, PopRoom(s'.k), s.d.want, opening)
  {
    hide SlotOf, Contiguous, StepArm, StepSignal, Splice, Batch, StepHalf;
    if a.ProducerStep? {
      ProducerKeepsPopRoom(s.k, Returns(s.pslot, s.cslot, s.k.p));
      hide StepProducer;
    } else if a.ConsumerStep? {
      ConsumerOpened(s.k, Returns(s.cslot, s.pslot, s.k.c), s.d.want, opening);
      hide StepConsumer;
    }
  }

  lemma PopOpeningStep(s: State, a: Action)
    requires Shape(s.k, s.d) && Linked(s) && Enabled(s, a) && !Apply(s, a).k.c.Idle?
    requires PopOpening(s.k, s.d.want) && s.d.want > 0
    ensures var s' := Apply(s, a);
            && Words(s.k) && Words(s'.k) && s'.d.want == s.d.want
            && (PopOpening(s'.k, s.d.want)
                || (s.k.c.Reload? && Opened(s'.k.c, PopRoom(s'.k), s.d.want, Ready(s.k, s.k.write))))
  {
    hide SlotOf, Contiguous, StepArm, StepSignal, Splice, Batch;
    if a.ProducerStep? {
      ProducerKeepsPopRoom(s.k, Returns(s.pslot, s.cslot, s.k.p));
      hide StepHalf, StepProducer;
    }
  }

  /** The call that is under way at `j` is still under way at `i`. */
  ghost predicate PopLasts(run: seq<State>, j: nat, i: nat) {
    j <= i < |run| && forall m :: j <= m <= i ==> !run[m].k.c.Idle?
  }

  lemma {:induction false} PopStaysOpened(run: seq<State>, j: nat, i: nat, opening: nat)
    requires IsRun(run) && PopLasts(run, j, i)
    requires Opened(run[j].k.c, PopRoom(run[j].k), run[j].d.want, opening)
    ensures run[i].d.want == run[j].d.want
    ensures Opened(run[i].k.c, PopRoom(run[i].k), run[j].d.want, opening)
    decreases i
  {
    hide Apply, Shape, Linked, Init, Opened, PopRoom;
    if j < i {
      PopStaysOpened(run, j, i - 1, opening);
      assert Next(run[i - 1], run[i - 1 + 1]);
      var a :| Enabled(run[i - 1], a) && run[i] == Apply(run[i - 1], a);
      OpenedPopStep(run[i - 1], a, opening);
    }
  }

  /** At `l` the opening attempt for `n` items loads the shared index. */
  ghost predicate PopLoadsAt(run: seq<State>, l: nat, n: nat) {
    l + 1 < |run| && run[l].k.c == Reload(n, Initial) && run[l + 1].k.c != run[l].k.c && Words(run[l].k)
  }

  /** An exhausted cache sends the opening attempt to the shared index, and what it finds there decides. */
  lemma {:induction false} PopFindsOpening(run: seq<State>, j: nat, i: nat)
    requires IsRun(run) && PopLasts(run, j, i) && run[j].d.want > 0 && PopOpening(run[j].k, run[j].d.want)
    ensures run[i].d.want == run[j].d.want
    ensures PopOpening(run[i].k, run[j].d.want)
            || exists l :: j <= l < i && PopLoadsAt(run, l, run[j].d.want)
                           && Opened(run[i].k.c, PopRoom(run[i].k), run[j].d.want, Ready(run[l].k, run[l].k.write))
    decreases i
  {
    hide Apply, Shape, Linked, Init, PopRoom, Ready, Opened;
    if j < i {
      var n := run[j].d.want;
      PopFindsOpening(run, j, i - 1);
      assert Next(run[i - 1], run[i - 1 + 1]);
      var a :| Enabled(run[i - 1], a) && run[i] == Apply(run[i - 1], a);
      if PopOpening(run[i - 1].k, n) {
        PopOpeningStep(run[i - 1], a);
        if !PopOpening(run[i].k, n) {
          assert PopLoadsAt(run, i - 1, n);
        }
      } else {
        var l :| j <= l < i - 1 && PopLoadsAt(run, l, n)
                 && Opened(run[i - 1].k.c, PopRoom(run[i - 1].k), n, Ready(run[l].k, run[l].k.write));
        OpenedPopStep(run[i - 1], a, Ready(run[l].k, run[l].k.write));
      }
    }
  }

  /** The step from `s` to `s'` starts a counted pop of `n` items. */
  ghost predicate StartsPop(s: State, s': State, n: nat) {
    Shape(s.k, s.d) && Linked(s) && Enabled(s, StartPop(n, true)) && s' == Apply(s, StartPop(n, true))
  }

  lemma PopStarted(s: State, s': State, n: nat)
    requires StartsPop(s, s', n) && !s'.k.c.Idle?
    ensures s'.k.c == Try(n, Initial) && n > 0 && PopRoom(s'.k) == PopRoom(s.k) && s'.d.want == n
    ensures PopRoom(s.k) > 0 ==> Opened(s'.k.c, PopRoom(s'.k), n, PopRoom(s.k))
  {
    hide StepProducer, StepConsumer;
  }

  /**
   A counted pop that starts at `j` and completes at `i`: with something visible
   in the cache, its cell is up to date at completion if and only if all it was
   asked for was visible at the start; with an exhausted cache, if and only if
   all of it was there when the opening attempt loaded the shared index.
   */
  lemma PopCellExactIff(run: seq<State>, j: nat, i: nat, n: nat)
    requires IsRun(run) && j < i && i + 1 < |run|
    requires StartsPop(run[j], run[j + 1], n) && PopLasts(run, j + 1, i)
    requires Completes(run[i].k.c, run[i + 1].k.c)
    ensures PopRoom(run[j].k) > 0 ==> (run[i + 1].d.cprogress == n <==> n <= PopRoom(run[j].k))
    ensures PopRoom(run[j].k) == 0 ==>
              exists l :: j < l < i && PopLoadsAt(run, l, n)
                          && (run[i + 1].d.cprogress == n <==> n <= Ready(run[l].k, run[l].k.write))
  {
    PopProgressAtCompletion(run, i);
    PopCompletionKeeps(run, i);
    PopStarted(run[j], run[j + 1], n);
    hide Apply, Shape, Linked, PopRoom, Ready, Opened, IsRun, StartsPop, Next;
    if PopRoom(run[j].k) > 0 {
      PopStaysOpened(run, j + 1, i, PopRoom(run[j].k));
      CompletedBy(run[i].k.c, PopRoom(run[i].k), n, PopRoom(run[j].k));
    } else {
      PopFindsOpening(run, j + 1, i);
      var l :| j + 1 <= l < i && PopLoadsAt(run, l, n)
               && Opened(run[i].k.c, PopRoom(run[i].k), n, Ready(run[l].k, run[l].k.write));
      CompletedBy(run[i].k.c, PopRoom(run[i].k), n, Ready(run[l].k, run[l].k.write));
    }
  }

  lemma PopCompletionKeeps(run: seq<State>, i: nat)
    requires IsRun(run) && i + 1 < |run| && Completes(run[i].k.c, run[i + 1].k.c)
    ensures run[i + 1].d.want == run[i].d.want
  {
    assert Next(run[i], run[i + 1]);
    hide Apply;
    var a :| Enabled(run[i], a) && run[i + 1] == Apply(run[i], a);
    PopReturns(run[i], a);
  }

  /** `free_count` and `available_count` make the visible amount the true one, so a caller can test it first. */
  lemma RefreshShowsTruth(run: seq<State>, i: nat)
    requires IsRun(run) && i < |run|
    ensures var s := run[i];
            && Shape(s.k, s.d) && Linked(s)
            && (s.k.p.Idle? ==> PushRoom(Apply(s, RefreshProducer).k) == Cap(s.k) - (|s.d.sent| - |s.d.out|))
            && (s.k.c.Idle? ==> PopRoom(Apply(s, RefreshConsumer).k) == |s.d.sent| - |s.d.out|)
  {
    RunInv(run, i);
    InvLinked(run[i]);
    QuantitiesExact(run[i].k);
    hide PushInv, PopInv, CopyInv, WakeAll, HalfInv, BitAnd;
  }
}

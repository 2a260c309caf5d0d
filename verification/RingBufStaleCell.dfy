/**
 Two runs of a one-slot ring in which a poll completes a counted transfer and
 leaves the caller's progress cell behind.
 */
module RingBufStaleCell {
  import opened Notify
  import opened RingBuf
  import opened RingBufTheorems

  ghost predicate Reachable(s: State) {
    exists run: seq<State> :: IsRun(run) && run[|run| - 1] == s
  }

  lemma ExtendRun(run: seq<State>, a: Action)
    requires IsRun(run) && Shape(run[|run| - 1].k, run[|run| - 1].d) && Linked(run[|run| - 1]) && Enabled(run[|run| - 1], a)
    ensures IsRun(run + [Apply(run[|run| - 1], a)])
  {
    hide Apply, Shape, Linked, Init;
    var s := run[|run| - 1];
    var next := run + [Apply(s, a)];
    assert Next(s, Apply(s, a));
    forall i | 0 <= i < |next| - 1 ensures Next(next[i], next[i + 1]) {
      if i < |run| - 1 {
        assert Next(run[i], run[i + 1]);
      }
    }
  }

  lemma Reach(s: State, a: Action)
    requires Reachable(s) && Shape(s.k, s.d) && Linked(s) && Enabled(s, a)
    ensures Reachable(Apply(s, a))
  {
    hide Apply, Shape, Linked;
    var run: seq<State> :| IsRun(run) && run[|run| - 1] == s;
    ExtendRun(run, a);
    var next := run + [Apply(s, a)];
    assert next[|next| - 1] == Apply(s, a);
  }

  /** A slot that nobody waits on, with or without a signaller about to look at it. */
  function Unarmed(signalled: bool): Slot {
    if signalled then NewSlot().(signals := map[0 := LoadArmed]) else NewSlot()
  }

  /** The one-slot ring after `w` pushes and `r` pops; `pr` and `cw` are the caches. */
  function One(w: nat, r: nat, pr: nat, cw: nat, p: Pc, c: Pc, d: Data): State {
    State(Core(0, w, r, pr, cw, w, r, pr, cw, p, c), d, Unarmed(c.Signal?), Unarmed(p.Signal?))
  }

  predicate Few(w: nat, r: nat, pr: nat, cw: nat, d: Data) {
    w < 10 && r < 10 && pr < 10 && cw < 10 && |d.buf| == 1
  }

  lemma OneSlot(w: nat, r: nat, pr: nat, cw: nat, p: Pc, c: Pc, d: Data, x: nat)
    requires Few(w, r, pr, cw, d)
    ensures var k := One(w, r, pr, cw, p, c, d).k; Words(k) && Cap(k) == 1 && SlotOf(k, x) == 0
  {
  }

  /** The half that is not moving. */
  predicate Still(pc: Pc) {
    pc.Idle? || pc.Future?
  }

  // ---------------- a push of one item into the empty ring ----------------

  lemma PushTries(w: nat, pr: nat, cw: nat, left: nat, att: Attempt, c: Pc, d: Data)
    requires Few(w, w, pr, cw, d) && 0 < left && (pr == w || pr + 1 == w) && Still(c)
    requires Reachable(One(w, w, pr, cw, Try(left, att), c, d))
    ensures Reachable(One(w, w, w, cw, Copy(left, att, 1), c, d))
  {
    var s := One(w, w, pr, cw, Try(left, att), c, d);
    OneSlot(w, w, pr, cw, s.k.p, c, d, w);
    Reach(s, ProducerStep);
    if pr + 1 == w {
      var s1 := One(w, w, pr, cw, Reload(left, att), c, d);
      OneSlot(w, w, pr, cw, s1.k.p, c, d, w);
      assert Apply(s, ProducerStep) == s1;
      Reach(s1, ProducerStep);
    }
  }

  /** The data after one item more has been published. */
  function Pushed(d: Data, x: Item): Data {
    d.(buf := [x], sent := d.sent + [x])
  }

  lemma PushCopies(w: nat, cw: nat, left: nat, att: Attempt, c: Pc, d: Data, x: Item)
    requires Few(w, w, w, cw, d) && 0 < left <= |d.items| && x == d.items[|d.items| - left] && Still(c)
    requires Reachable(One(w, w, w, cw, Copy(left, att, 1), c, d))
    ensures Reachable(One(w, w, w, cw, Publish(left, att, 1), c, d.(buf := [x])))
  {
    var s := One(w, w, w, cw, Copy(left, att, 1), c, d);
    OneSlot(w, w, w, cw, s.k.p, c, d, w);
    Reach(s, ProducerStep);
    assert Batch(s.k, s.d) == [x];
    assert Apply(s, ProducerStep).d.buf == [x];
  }

  lemma PushPublishes(w: nat, cw: nat, left: nat, att: Attempt, c: Pc, d: Data, x: Item)
    requires Few(w, w, w, cw, d) && 0 < left <= |d.items| && x == d.items[|d.items| - left] && Still(c) && d.buf == [x]
    requires Reachable(One(w, w, w, cw, Publish(left, att, 1), c, d))
    ensures Reachable(One(w + 1, w, w, cw, Signal(left - 1, att), c, Pushed(d, x)))
  {
    var s := One(w, w, w, cw, Publish(left, att, 1), c, d);
    OneSlot(w, w, w, cw, s.k.p, c, d, w);
    Reach(s, ProducerStep);
    assert Batch(s.k, s.d) == [x];
  }

  lemma PushMoves(w: nat, pr: nat, cw: nat, left: nat, att: Attempt, c: Pc, d: Data, x: Item)
    requires Few(w, w, pr, cw, d) && (pr == w || pr + 1 == w) && Still(c)
    requires 0 < left <= |d.items| && x == d.items[|d.items| - left]
    requires Reachable(One(w, w, pr, cw, Try(left, att), c, d))
    ensures Reachable(One(w + 1, w, w, cw, Signal(left - 1, att), c, Pushed(d, x)))
  {
    hide Reachable, One;
    PushTries(w, pr, cw, left, att, c, d);
    PushCopies(w, cw, left, att, c, d, x);
    PushPublishes(w, cw, left, att, c, d.(buf := [x]), x);
    assert Pushed(d.(buf := [x]), x) == Pushed(d, x);
  }

  /** Nobody is armed, so `signal` returns at once. */
  lemma PushSignals(w: nat, r: nat, pr: nat, cw: nat, left: nat, att: Attempt, c: Pc, d: Data)
    requires Few(w, r, pr, cw, d) && Still(c) && left <= |d.items| && (left == 0 || att.Initial?)
    ensures var s := One(w, r, pr, cw, Signal(left, att), c, d);
            && Shape(s.k, s.d) && Linked(s)
            && Apply(s, ProducerStep)
               == One(w, r, pr, cw, Settle(left, att), c, if att.Initial? then d.(pprogress := |d.items| - left) else d)
  {
    var s := One(w, r, pr, cw, Signal(left, att), c, d);
    OneSlot(w, r, pr, cw, s.k.p, c, d, w);
    OneSlot(w, r, pr, cw, s.k.p, c, d, r);
    assert StepSignal(s.cslot, 0) == NewSlot();
  }

  // ---------------- a pop of one item from the full ring ----------------

  lemma PopTries(r: nat, pr: nat, cw: nat, left: nat, att: Attempt, p: Pc, d: Data)
    requires Few(r + 1, r, pr, cw, d) && 0 < left && (cw == r || cw == r + 1) && Still(p)
    requires Reachable(One(r + 1, r, pr, cw, p, Try(left, att), d))
    ensures Reachable(One(r + 1, r, pr, r + 1, p, Copy(left, att, 1), d))
  {
    var s := One(r + 1, r, pr, cw, p, Try(left, att), d);
    OneSlot(r + 1, r, pr, cw, p, s.k.c, d, r);
    Reach(s, ConsumerStep);
    if cw == r {
      var s1 := One(r + 1, r, pr, cw, p, Reload(left, att), d);
      OneSlot(r + 1, r, pr, cw, p, s1.k.c, d, r);
      assert Apply(s, ConsumerStep) == s1;
      Reach(s1, ConsumerStep);
    }
  }

  function Popped(d: Data): Data {
    d.(held := d.buf, out := d.out + d.buf, got := d.got + d.buf)
  }

  lemma PopCopies(r: nat, pr: nat, left: nat, att: Attempt, p: Pc, d: Data)
    requires Few(r + 1, r, pr, r + 1, d) && 0 < left && Still(p)
    requires Reachable(One(r + 1, r, pr, r + 1, p, Copy(left, att, 1), d))
    ensures Reachable(One(r + 1, r, pr, r + 1, p, Publish(left, att, 1), d.(held := d.buf)))
  {
    var s := One(r + 1, r, pr, r + 1, p, Copy(left, att, 1), d);
    OneSlot(r + 1, r, pr, r + 1, p, s.k.c, d, r);
    Reach(s, ConsumerStep);
    assert Apply(s, ConsumerStep).d.held == d.buf;
  }

  lemma PopPublishes(r: nat, pr: nat, left: nat, att: Attempt, p: Pc, d: Data)
    requires Few(r + 1, r, pr, r + 1, d) && 0 < left && Still(p) && d.held == d.buf
    requires Reachable(One(r + 1, r, pr, r + 1, p, Publish(left, att, 1), d))
    ensures Reachable(One(r + 1, r + 1, pr, r + 1, p, Signal(left - 1, att), Popped(d)))
  {
    var s := One(r + 1, r, pr, r + 1, p, Publish(left, att, 1), d);
    OneSlot(r + 1, r, pr, r + 1, p, s.k.c, d, r);
    Reach(s, ConsumerStep);
  }

  lemma PopMoves(r: nat, pr: nat, cw: nat, left: nat, att: Attempt, p: Pc, d: Data)
    requires Few(r + 1, r, pr, cw, d) && 0 < left && (cw == r || cw == r + 1) && Still(p)
    requires Reachable(One(r + 1, r, pr, cw, p, Try(left, att), d))
    ensures Reachable(One(r + 1, r + 1, pr, r + 1, p, Signal(left - 1, att), Popped(d)))
  {
    hide Reachable, One;
    PopTries(r, pr, cw, left, att, p, d);
    PopCopies(r, pr, left, att, p, d);
    PopPublishes(r, pr, left, att, p, d.(held := d.buf));
    assert Popped(d.(held := d.buf)) == Popped(d);
  }

  lemma PopSignals(w: nat, r: nat, pr: nat, cw: nat, left: nat, att: Attempt, p: Pc, d: Data)
    requires Few(w, r, pr, cw, d) && Still(p) && (left == 0 || att.Initial?)
    ensures var s := One(w, r, pr, cw, p, Signal(left, att), d);
            && Shape(s.k, s.d) && Linked(s)
            && Apply(s, ConsumerStep)
               == One(w, r, pr, cw, p, Settle(left, att), if att.Initial? then d.(cprogress := |d.got|) else d)
  {
    var s := One(w, r, pr, cw, p, Signal(left, att), d);
    OneSlot(w, r, pr, cw, p, s.k.c, d, w);
    OneSlot(w, r, pr, cw, p, s.k.c, d, r);
    assert StepSignal(s.pslot, 0) == NewSlot();
  }

  // ---------------- the calls ----------------

  lemma BeginPush(w: nat, r: nat, pr: nat, cw: nat, c: Pc, d: Data, items: seq<Item>, wait: bool)
    requires Few(w, r, pr, cw, d) && Still(c) && items != [] && Reachable(One(w, r, pr, cw, Idle, c, d))
    ensures Reachable(One(w, r, pr, cw, Try(|items|, if wait then Initial else Direct), c, d.(items := items, pbase := |d.sent|)))
  {
    OneSlot(w, r, pr, cw, Idle, c, d, w);
    OneSlot(w, r, pr, cw, Idle, c, d, r);
    Reach(One(w, r, pr, cw, Idle, c, d), StartPush(items, wait));
  }

  lemma ResumePush(w: nat, r: nat, pr: nat, cw: nat, left: nat, c: Pc, d: Data, wk: Waker)
    requires Few(w, r, pr, cw, d) && Still(c) && Reachable(One(w, r, pr, cw, Future(left), c, d))
    ensures Reachable(One(w, r, pr, cw, Try(left, First(wk)), c, d))
  {
    OneSlot(w, r, pr, cw, Future(left), c, d, w);
    OneSlot(w, r, pr, cw, Future(left), c, d, r);
    Reach(One(w, r, pr, cw, Future(left), c, d), PollPush(wk));
  }

  lemma EndPush(w: nat, r: nat, pr: nat, cw: nat, left: nat, att: Attempt, c: Pc, d: Data)
    requires Few(w, r, pr, cw, d) && Still(c) && left <= |d.items| && (left == 0 || att.Initial?)
    requires Reachable(One(w, r, pr, cw, Signal(left, att), c, d))
    ensures Reachable(One(w, r, pr, cw, Settle(left, att), c, if att.Initial? then d.(pprogress := |d.items| - left) else d))
  {
    PushSignals(w, r, pr, cw, left, att, c, d);
    Reach(One(w, r, pr, cw, Signal(left, att), c, d), ProducerStep);
  }

  lemma BeginPop(w: nat, r: nat, pr: nat, cw: nat, p: Pc, d: Data, n: nat, wait: bool)
    requires Few(w, r, pr, cw, d) && Still(p) && n > 0 && Reachable(One(w, r, pr, cw, p, Idle, d))
    ensures Reachable(One(w, r, pr, cw, p, Try(n, if wait then Initial else Direct), d.(want := n, got := [], cbase := |d.out|)))
  {
    OneSlot(w, r, pr, cw, p, Idle, d, w);
    OneSlot(w, r, pr, cw, p, Idle, d, r);
    Reach(One(w, r, pr, cw, p, Idle, d), StartPop(n, wait));
  }

  lemma ResumePop(w: nat, r: nat, pr: nat, cw: nat, left: nat, p: Pc, d: Data, wk: Waker)
    requires Few(w, r, pr, cw, d) && Still(p) && Reachable(One(w, r, pr, cw, p, Future(left), d))
    ensures Reachable(One(w, r, pr, cw, p, Try(left, First(wk)), d))
  {
    OneSlot(w, r, pr, cw, p, Future(left), d, w);
    OneSlot(w, r, pr, cw, p, Future(left), d, r);
    Reach(One(w, r, pr, cw, p, Future(left), d), PollPop(wk));
  }

  lemma EndPop(w: nat, r: nat, pr: nat, cw: nat, left: nat, att: Attempt, p: Pc, d: Data)
    requires Few(w, r, pr, cw, d) && Still(p) && (left == 0 || att.Initial?)
    requires Reachable(One(w, r, pr, cw, p, Signal(left, att), d))
    ensures Reachable(One(w, r, pr, cw, p, Settle(left, att), if att.Initial? then d.(cprogress := |d.got|) else d))
  {
    PopSignals(w, r, pr, cw, left, att, p, d);
    Reach(One(w, r, pr, cw, p, Signal(left, att), d), ConsumerStep);
  }

  function Empty(x: Item): Data {
    Data([x], [], [], [], 0, 0, 0, [], [], 0, 0)
  }

  lemma InitReachable(x: Item)
    ensures Reachable(One(0, 0, 0, 0, Idle, Idle, Empty(x)))
  {
    var s := One(0, 0, 0, 0, Idle, Idle, Empty(x));
    OneSlot(0, 0, 0, 0, Idle, Idle, Empty(x), 0);
    assert Init(s);
    assert IsRun([s]);
  }

  // ---------------- the two runs ----------------

  /** Pushing `[a, b]`: one item moves at once, one after a pop; the data when the last `signal` is due. */
  lemma PushNearlyDone(x: Item, a: Item, b: Item) returns (d: Data)
    ensures Reachable(One(2, 1, 1, 1, Signal(0, First(7)), Idle, d)) && |d.buf| == 1
    ensures d.items == [a, b] && d.sent == [a, b] && d.pprogress == 1
  {
    InitReachable(x);
    hide Reachable, One;
    BeginPush(0, 0, 0, 0, Idle, Empty(x), [a, b], true);
    var d1 := Empty(x).(items := [a, b], pbase := 0);
    PushMoves(0, 0, 0, 2, Initial, Idle, d1, a);
    EndPush(1, 0, 0, 0, 1, Initial, Idle, Pushed(d1, a));
    var d2 := Pushed(d1, a).(pprogress := 1);
    BeginPop(1, 0, 0, 0, Future(1), d2, 1, false);
    var d3 := d2.(want := 1, got := [], cbase := 0);
    PopMoves(0, 0, 0, 1, Direct, Future(1), d3);
    EndPop(1, 1, 0, 1, 0, Direct, Future(1), Popped(d3));
    ResumePush(1, 1, 0, 1, 1, Idle, Popped(d3), 7);
    PushMoves(1, 0, 1, 1, First(7), Idle, Popped(d3), b);
    d := Pushed(Popped(d3), b);
  }

  /** A poll completes the push of two items, and the caller's cell still says one. */
  lemma PushCellCanBeStale(x: Item, a: Item, b: Item)
    ensures exists run: seq<State> ::
              && IsRun(run) && |run| > 1 && Completes(run[|run| - 2].k.p, run[|run| - 1].k.p)
              && run[|run| - 1].d.items == [a, b] && run[|run| - 1].d.sent == [a, b] && run[|run| - 1].d.pprogress == 1
  {
    var d := PushNearlyDone(x, a, b);
    var s := One(2, 1, 1, 1, Signal(0, First(7)), Idle, d);
    PushSignals(2, 1, 1, 1, 0, First(7), Idle, d);
    var run: seq<State> :| IsRun(run) && run[|run| - 1] == s;
    hide IsRun, Apply, Shape, Linked;
    ExtendRun(run, ProducerStep);
    var next := run + [Apply(s, ProducerStep)];
    assert next[|next| - 2] == s && next[|next| - 1] == Apply(s, ProducerStep);
  }

  /** Popping two items: one is there at once, one is pushed while the call waits. */
  lemma PopNearlyDone(x: Item, a: Item, b: Item) returns (d: Data)
    ensures Reachable(One(2, 2, 1, 2, Idle, Signal(0, First(7)), d)) && |d.buf| == 1
    ensures d.want == 2 && d.got == [a, b] && d.cprogress == 1
  {
    InitReachable(x);
    hide Reachable, One;
    BeginPush(0, 0, 0, 0, Idle, Empty(x), [a], false);
    var d1 := Empty(x).(items := [a], pbase := 0);
    PushMoves(0, 0, 0, 1, Direct, Idle, d1, a);
    EndPush(1, 0, 0, 0, 0, Direct, Idle, Pushed(d1, a));
    BeginPop(1, 0, 0, 0, Idle, Pushed(d1, a), 2, true);
    var d2 := Pushed(d1, a).(want := 2, got := [], cbase := 0);
    PopMoves(0, 0, 0, 2, Initial, Idle, d2);
    EndPop(1, 1, 0, 1, 1, Initial, Idle, Popped(d2));
    var d3 := Popped(d2).(cprogress := 1);
    BeginPush(1, 1, 0, 1, Future(1), d3, [b], false);
    var d4 := d3.(items := [b], pbase := 1);
    PushMoves(1, 0, 1, 1, Direct, Future(1), d4, b);
    EndPush(2, 1, 1, 1, 0, Direct, Future(1), Pushed(d4, b));
    ResumePop(2, 1, 1, 1, 1, Idle, Pushed(d4, b), 7);
    PopMoves(1, 1, 1, 1, First(7), Idle, Pushed(d4, b));
    d := Popped(Pushed(d4, b));
  }

  /** A poll completes the pop of two items, and the caller's cell still says one. */
  lemma PopCellCanBeStale(x: Item, a: Item, b: Item)
    ensures exists run: seq<State> ::
              && IsRun(run) && |run| > 1 && Completes(run[|run| - 2].k.c, run[|run| - 1].k.c)
              && run[|run| - 1].d.want == 2 && run[|run| - 1].d.got == [a, b] && run[|run| - 1].d.cprogress == 1
  {
    var d := PopNearlyDone(x, a, b);
    var s := One(2, 2, 1, 2, Idle, Signal(0, First(7)), d);
    PopSignals(2, 2, 1, 2, 0, First(7), Idle, d);
    var run: seq<State> :| IsRun(run) && run[|run| - 1] == s;
    hide IsRun, Apply, Shape, Linked;
    ExtendRun(run, ConsumerStep);
    var next := run + [Apply(s, ConsumerStep)];
    assert next[|next| - 2] == s && next[|next| - 1] == Apply(s, ConsumerStep);
  }
}

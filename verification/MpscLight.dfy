/**
 The multi-producer single-consumer channel as a whole: any number of senders
 and send calls around the locked state, one receiver with its private staging
 buffer, and the wakes that have left the lock but not yet arrived.
 */
module MpscLight {
  import opened Wrappers
  import opened Notify
  import opened MpscChannel

  /** Where a `send`, `try_send` or `try_send_many` call stands. */
  datatype CallPc =
    | Rest                     // a `send` future nobody is polling
    | Repolling(id: nat)       // polled again: about to leave the wait-list
    | Checking(again: bool)    // about to look at `closed`; `again` after a re-poll
    | Pushing(again: bool)     // about to try the push
    | Parking                  // found the queue full: about to push or park
    | TryChecking
    | TryPushing
    | TryRechecking
    | ManyChecking
    | ManyPushing
    | Signalling               // accepted: inside `recv.signal()`
    | Returned

  /** One call: its sender, the items it still holds, its registration, and whether that registration was woken. */
  datatype Call = Call(owner: nat, vals: seq<Item>, parked: Option<nat>, pc: CallPc, notified: bool)

  /** Why the receiver looks for an item; a final look follows the discovery that no sender is left. */
  datatype Context = Once | OnceFinal | Many(left: nat) | First(w: Waker) | FirstFinal | Recheck | RecheckFinal

  datatype RxPc =
    | RIdle
    | RNext(ctx: Context)      // next_staged: serve from staging or go stealing
    | RLen(ctx: Context)       // about to load `waiters_len`
    | RWake(ctx: Context)      // about to wake one waiter
    | RSteal(ctx: Context)     // about to steal the queue
    | RSenders(ctx: Context)   // about to load the sender count
    | RArm
    | RDisarm                  // leaving a poll: about to disarm
    | RDisarmFinal             // no sender left: disarm, then a final look
    | RParkLen                 // about to sleep: load `waiters_len`
    | RParkWake                // about to sleep: wake one waiter
    | RParked
    | RClosing                 // dropped: about to store `closed`
    | RFlushing                // about to wake all waiters
    | RGone

  /**
   `live` are the sender handles; `issued` remembers which call each wait-list
   id was given to; `wakes` are the ids whose waker is about to be called.
   `ended` records that the receiver has reported the end of the channel and
   `flushed` that it has dissolved the wait-list.  `accepted` and `delivered`
   are the histories of both ends.
   */
  datatype State = State(
    ch: Chan, calls: map<nat, Call>, live: set<nat>, nextCall: nat,
    issued: map<nat, nat>, wakes: set<nat>,
    rx: RxPc, staging: seq<Item>, ended: bool, flushed: bool, slot: Slot,
    accepted: seq<Item>, delivered: seq<Item>)

  ghost predicate Init(s: State) {
    exists capacity :: s == State(NewChan(capacity), map[], {0}, 1, map[], {}, RIdle, [], false, false, NewSlot(), [], [])
  }

  // ---------------- senders ----------------

  function Set(s: State, f: nat, c: Call): State {
    s.(calls := s.calls[f := c])
  }

  function MoveTo(s: State, f: nat, pc: CallPc): State
    requires f in s.calls
  {
    Set(s, f, s.calls[f].(pc := pc))
  }

  /** `n` items of call `f` were accepted: record them and start the signal. */
  function Accept(s: State, f: nat, ch: Chan, n: nat): State
    requires f in s.calls && n <= |s.calls[f].vals|
  {
    var c := s.calls[f];
    Set(s, f, c.(pc := Signalling, vals := c.vals[n..]))
      .(ch := ch, accepted := s.accepted + c.vals[..n], slot := BeginSignal(s.slot, f))
  }

  function Woke(s: State, woken: Option<nat>): State {
    if woken.Some? then s.(wakes := s.wakes + {woken.value}) else s
  }

  function ParkCall(s: State, f: nat, ch: Chan, id: nat): State
    requires f in s.calls
  {
    Set(s, f, s.calls[f].(pc := Rest, parked := Some(id), notified := false)).(ch := ch, issued := s.issued[id := f])
  }

  function StepCall(s: State, f: nat): State
    requires f in s.calls && CallReady(s, f)
  {
    var c := s.calls[f];
    match c.pc
    case Rest => s
    case Repolling(id) => MoveTo(s, f, Checking(true)).(ch := Repoll(s.ch, id))
    case Checking(again) => MoveTo(s, f, if s.ch.closed then Returned else Pushing(again))
    case Pushing(_) =>
      var (ch, ok) := TryPush(s.ch, c.vals[0]);
      if ok then Accept(s, f, ch, 1) else MoveTo(s, f, Parking)
    case Parking =>
      var (ch, out) := PushOrPark(s.ch, c.vals[0]);
      (match out
       case Sent => Accept(s, f, ch, 1)
       case Closed => MoveTo(s, f, Returned)
       case Parked(id) => ParkCall(s, f, ch, id))
    case TryChecking => MoveTo(s, f, if s.ch.closed then Returned else TryPushing)
    case TryPushing =>
      var (ch, ok) := TryPush(s.ch, c.vals[0]);
      if ok then Accept(s, f, ch, 1) else MoveTo(s, f, TryRechecking)
    case TryRechecking => MoveTo(s, f, Returned)
    case ManyChecking => MoveTo(s, f, if s.ch.closed then Returned else ManyPushing)
    case ManyPushing =>
      var (ch, n) := TryPushMany(s.ch, c.vals);
      if n > 0 then Accept(s, f, ch, n) else MoveTo(s, f, Returned)
    case Signalling =>
      var slot := StepSignal(s.slot, f);
      MoveTo(s, f, if f in slot.signals then Signalling else Returned).(slot := slot)
    case Returned => s.(calls := s.calls - {f})
  }

  /** What the call's next step takes for granted. */
  predicate CallReady(s: State, f: nat)
    requires f in s.calls
  {
    var c := s.calls[f];
    && |s.ch.queue| <= s.ch.cap
    && (c.pc.Pushing? || c.pc.Parking? || c.pc.TryPushing? ==> c.vals != [])
    && (c.pc.Signalling? ==> f in s.slot.signals)
  }

  /** Dropping a `send` future: a registered one is cancelled. */
  function DropCall(s: State, f: nat): State
    requires f in s.calls
  {
    var c := s.calls[f];
    var s1 := s.(calls := s.calls - {f});
    if c.parked.Some? then
      var (ch, woken) := Cancel(s.ch, c.parked.value);
      Woke(s1.(ch := ch), woken)
    else s1
  }

  /** A waker is called: its registration, if it still stands, is notified. */
  function Arrive(s: State, id: nat): State {
    var s1 := s.(wakes := s.wakes - {id});
    if id in s.issued && s.issued[id] in s.calls && s.calls[s.issued[id]].parked == Some(id)
    then Set(s1, s.issued[id], s.calls[s.issued[id]].(notified := true))
    else s1
  }

  // ---------------- the receiver ----------------

  predicate Polling(ctx: Context) {
    ctx.First? || ctx.FirstFinal? || ctx.Recheck? || ctx.RecheckFinal?
  }

  predicate Final(ctx: Context) {
    ctx.OnceFinal? || ctx.FirstFinal? || ctx.RecheckFinal?
  }

  /** An item was found. */
  function Hit(ctx: Context): RxPc {
    if Polling(ctx) then RDisarm
    else if ctx.Many? && ctx.left > 1 then RNext(Many(ctx.left - 1))
    else RIdle
  }

  /** Nothing was found. */
  function Miss(ctx: Context): RxPc {
    if ctx.OnceFinal? || ctx.Many? then RIdle
    else if Final(ctx) then RDisarm
    else RSenders(ctx)
  }

  function StepRx(s: State): State
    requires RxReady(s)
  {
    match s.rx
    case RIdle => s
    case RParked => s
    case RGone => s
    case RNext(ctx) =>
      if s.staging != [] then
        s.(staging := s.staging[1..], delivered := s.delivered + [s.staging[0]], rx := RLen(ctx))
      else s.(rx := RSteal(ctx))
    case RLen(ctx) => s.(rx := if s.ch.waitersLen > 0 then RWake(ctx) else Hit(ctx))
    case RWake(ctx) =>
      var (ch, woken) := WakeOne(s.ch);
      Woke(s.(ch := ch, rx := Hit(ctx)), woken)
    case RSteal(ctx) =>
      var (ch, items, woken) := Steal(s.ch);
      if items == [] then s.(rx := Miss(ctx), ended := s.ended || Final(ctx))
      else Woke(s.(ch := ch, staging := items[1..], delivered := s.delivered + [items[0]], rx := Hit(ctx)), woken)
    case RSenders(ctx) =>
      if s.live == {} then
        s.(rx := if ctx.Once? then RNext(OnceFinal) else if ctx.Recheck? then RDisarmFinal else RNext(FirstFinal))
      else if ctx.First? then s.(rx := RArm, slot := BeginArm(s.slot, ctx.w))
      else s.(rx := if ctx.Recheck? then RParkLen else RIdle)
    case RArm =>
      var slot := StepArm(s.slot);
      s.(slot := slot, rx := if AtRest(slot) then RNext(Recheck) else RArm)
    case RDisarm => s.(slot := Disarm(s.slot), rx := RIdle)
    case RDisarmFinal => s.(slot := Disarm(s.slot), rx := RNext(RecheckFinal))
    case RParkLen => s.(rx := if s.ch.waitersLen > 0 then RParkWake else RParked)
    case RParkWake =>
      var (ch, woken) := WakeOne(s.ch);
      Woke(s.(ch := ch, rx := RParked), woken)
    case RClosing => s.(ch := s.ch.(closed := true), rx := RFlushing)
    case RFlushing =>
      var (ch, woken) := WakeAll(s.ch);
      s.(ch := ch, wakes := s.wakes + (set id | id in woken), flushed := true, rx := RGone)
  }

  predicate RxReady(s: State) {
    s.rx.RArm? <==> !AtRest(s.slot)
  }

  // ---------------- the step relation ----------------

  datatype Action =
    | Clone(sd: nat)
    | DropSender(sd: nat)
    | NewSend(sd: nat, v: Item)
    | NewTry(sd: nat, v: Item)
    | NewMany(sd: nat, items: seq<Item>)
    | PollSend(f: nat)
    | DropSend(f: nat)
    | CallStep(f: nat)
    | SignalStep(id: nat)
    | FireWake(id: nat)
    | TryRecv
    | RecvMany(max: nat)
    | PollRecv(w: Waker)
    | CancelRecv
    | DropReceiver
    | RxStep

  predicate Idle(s: State, sd: nat) {
    forall f <- s.calls :: s.calls[f].owner != sd
  }

  predicate Enabled(s: State, a: Action) {
    match a
    case Clone(sd) => sd in s.live
    case DropSender(sd) => sd in s.live && Idle(s, sd)
    case NewSend(sd, _) => sd in s.live
    case NewTry(sd, _) => sd in s.live
    case NewMany(sd, _) => sd in s.live
    case PollSend(f) => f in s.calls && s.calls[f].pc.Rest?
    case DropSend(f) => f in s.calls && s.calls[f].pc.Rest?
    case CallStep(f) => f in s.calls && !s.calls[f].pc.Rest?
    case SignalStep(id) => id in s.slot.signals && id !in s.calls
    case FireWake(id) => id in s.wakes
    case TryRecv => s.rx.RIdle?
    case RecvMany(max) => s.rx.RIdle? && max > 0
    case PollRecv(_) => s.rx.RIdle? || s.rx.RParked?
    case CancelRecv => s.rx.RParked?
    case DropReceiver => s.rx.RIdle?
    case RxStep => !s.rx.RIdle? && !s.rx.RParked? && !s.rx.RGone?
  }

  function NewCall(s: State, c: Call): State {
    Set(s, s.nextCall, c).(nextCall := s.nextCall + 1)
  }

  function PollCall(s: State, f: nat): State
    requires f in s.calls
  {
    var c := s.calls[f];
    Set(s, f, c.(pc := if c.parked.Some? then Repolling(c.parked.value) else Checking(false),
                 parked := None, notified := false))
  }

  function DropHandle(s: State, sd: nat): State {
    var s1 := s.(live := s.live - {sd});
    if s1.live == {} then s1.(slot := BeginSignal(s.slot, s.nextCall), nextCall := s.nextCall + 1) else s1
  }

  predicate Ready(s: State) {
    RxReady(s) && forall f <- s.calls :: CallReady(s, f)
  }

  function Apply(s: State, a: Action): State
    requires Ready(s) && Enabled(s, a)
  {
    match a
    case Clone(_) => s.(live := s.live + {s.nextCall}, nextCall := s.nextCall + 1)
    case DropSender(sd) => DropHandle(s, sd)
    case NewSend(sd, v) => NewCall(s, Call(sd, [v], None, Rest, false))
    case NewTry(sd, v) => NewCall(s, Call(sd, [v], None, TryChecking, false))
    case NewMany(sd, items) => NewCall(s, Call(sd, items, None, ManyChecking, false))
    case PollSend(f) => PollCall(s, f)
    case DropSend(f) => DropCall(s, f)
    case CallStep(f) => StepCall(s, f)
    case SignalStep(id) => s.(slot := StepSignal(s.slot, id))
    case FireWake(id) => Arrive(s, id)
    case TryRecv => s.(rx := RNext(Once))
    case RecvMany(max) => s.(rx := RNext(Many(max)))
    case PollRecv(w) => s.(rx := RNext(First(w)))
    case CancelRecv => s.(rx := RDisarm)
    case DropReceiver => s.(rx := RClosing)
    case RxStep => StepRx(s)
  }

  ghost predicate Next(s: State, s': State) {
    Ready(s) && exists a :: Enabled(s, a) && s' == Apply(s, a)
  }

  ghost predicate IsRun(run: seq<State>) {
    && |run| > 0
    && Init(run[0])
    && forall i :: 0 <= i < |run| - 1 ==> Next(run[i], run[i + 1])
  }
}

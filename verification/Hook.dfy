/** The hooked IO calls: register, park, time out, retry. */
module Hook {
  import opened Tasks
  import opened Timers
  import E = EventTable

  const EINTR := 4
  const EBADF := 9
  const EAGAIN := 11
  const ETIMEDOUT := 110
  const EINPROGRESS := 115

  /** A `cancelEvent` that a timer callback has still to call: its check of the record is behind it. */
  datatype Cancel = Cancel(fd: nat, event: Event)

  /**
    * What a hooked call shares with the rest of the process: the event table, the timers, the queue of tasks that
    * are scheduled, the `timer_info` records that are alive, by call, and the timer callbacks under way. `log` lists
    * the calls whose timer callback found their record alive.
    */
  datatype World = World(
    table: E.Table, timers: seq<Entry<Callback>>, nextAddr: nat, previous: uint64,
    queue: seq<Cont>, info: map<nat, int>, cancelling: seq<Cancel>, log: seq<nat>)

  /** What others do while a call waits. */
  datatype Other =
    | Operate(op: E.Op)                                               // an operation on the event table
    | Expire(now: uint64)                                             // the idle loop hands out the expired callbacks
    | Arm(ms: uint64, now: uint64, recurring: bool, cb: Callback)     // a timer is added
    | Disarm(k: nat)                                                  // a timer is cancelled
    | Run(k: nat)                                                     // a scheduled task is run
    | Finish(k: nat, willing: bool)                                   // a timer callback calls `cancelEvent`

  /** One call of fiber `self`. */
  datatype Call = Call(id: nat, self: FiberId, fd: nat, event: Event)

  function TimeoutOf(c: Call): Callback { Timeout(c.id, c.fd, c.event) }

  /** The continuation or callback belongs to somebody else. */
  predicate Foreign(k: Cont, c: Call) {
    k != FiberCont(c.self) && (k.CallCont? ==> ForeignCall(k.cb, c))
  }

  predicate ForeignCall(cb: Callback, c: Call) {
    cb != Wake(c.self) && !(cb.Timeout? && cb.call == c.id)
  }

  /** Others neither register for this fiber, nor touch the timers of this call, nor run this fiber. */
  predicate Allowed(w: World, o: Other, c: Call) {
    match o
    case Operate(op) => |w.table.fds| >= 32 && !E.Aborts(w.table, op) && (op.OpAdd? ==> Foreign(op.cont, c))
    case Expire(_) => true
    case Arm(_, _, _, cb) => ForeignCall(cb, c)
    case Disarm(k) => k < |w.timers| && ForeignCall(w.timers[k].cb, c)
    case Finish(k, _) => k < |w.cancelling|
    case Run(k) => k < |w.queue| && w.queue[k] != FiberCont(c.self) && w.queue[k] != CallCont(Wake(c.self))
  }

  function AsCalls(cbs: seq<Callback>): seq<Cont> {
    seq(|cbs|, i requires 0 <= i < |cbs| => CallCont(cbs[i]))
  }

  /** The callback of a condition timer, up to its `cancelEvent`: nothing if the record is gone or has an errno. */
  function RunTimeout(w: World, call: nat, fd: nat, e: Event): World {
    if call !in w.info then w
    else
      var w1 := w.(log := w.log + [call]);
      if w.info[call] != 0 then w1
      else w1.(info := w.info[call := ETIMEDOUT], cancelling := w.cancelling + [Cancel(fd, e)])
  }

  /** Its `cancelEvent`. */
  function FinishCancel(w: World, k: nat, willing: bool): World
    requires k < |w.cancelling|
  {
    var f := E.CancelEvent(w.table, w.cancelling[k].fd, w.cancelling[k].event, willing);
    w.(cancelling := RemoveAt(w.cancelling, k), table := f.table, queue := w.queue + f.handed)
  }

  /** One action of others; one that is not allowed does not happen. */
  function Act(w: World, o: Other, c: Call): World {
    if !Allowed(w, o, c) then w
    else
      match o
      case Operate(op) => var f := E.Apply(w.table, op); w.(table := f.table, queue := w.queue + f.handed)
      case Expire(now) =>
        var k := ExpireCount(w.timers, now, w.previous);
        w.(timers := Rearm(w.timers[..k], w.timers[k..], now),
           queue := w.queue + AsCalls(Callbacks(w.timers[..k])),
           previous := if w.timers == [] then w.previous else now)
      case Arm(ms, now, recurring, cb) =>
        w.(timers := Insert(w.timers, Entry(Add64(now, ms), w.nextAddr, ms, recurring, cb)), nextAddr := w.nextAddr + 1)
      case Disarm(k) => w.(timers := RemoveAt(w.timers, k))
      case Finish(k, willing) => FinishCancel(w, k, willing)
      case Run(k) =>
        var w1 := w.(queue := RemoveAt(w.queue, k));
        match w.queue[k]
        case FiberCont(_) => w1
        case CallCont(cb) =>
          match cb
          case User(_) => w1
          case Wake(f) => w1.(queue := w1.queue + [FiberCont(f)])
          case Timeout(call, fd, e) => RunTimeout(w1, call, fd, e)
  }

  function ActAll(w: World, os: seq<Other>, c: Call): World
    decreases |os|
  {
    if os == [] then w else ActAll(Act(w, os[0], c), os[1..], c)
  }

  // ----- What others leave alone -----

  predicate Mine(e: Entry<Callback>, c: Call) {
    e.cb.Timeout? && e.cb.call == c.id
  }

  /** The only armed timer of the call, if any, is `timer`, and it does not recur. */
  predicate ArmedOnly(timers: seq<Entry<Callback>>, c: Call, timer: Option<nat>) {
    forall e <- timers :: Mine(e, c) ==> timer == Some(e.addr) && !e.recurring
  }

  /** How many wake-ups of the fiber there are, in slots and in the queue. */
  ghost function Pending(w: World, c: Call): nat {
    E.Slots(w.table)[FiberCont(c.self)] + multiset(w.queue)[FiberCont(c.self)]
  }

  /** The record of the call is alive, and holds an errno exactly if its timer callback has run since `mark`. */
  predicate Recorded(w: World, c: Call, mark: nat) {
    && c.id in w.info && mark <= |w.log|
    && w.info[c.id] == if c.id in w.log[mark..] then ETIMEDOUT else 0
  }

  /** The invariant of a call in progress. */
  ghost predicate InCall(w: World, c: Call, timer: Option<nat>, wakeUps: nat, mark: nat) {
    E.Inv(w.table) && ArmedOnly(w.timers, c, timer) && Pending(w, c) <= wakeUps && Recorded(w, c, mark)
  }

  lemma InsertArmed(timers: seq<Entry<Callback>>, e: Entry<Callback>, c: Call, timer: Option<nat>)
    requires ArmedOnly(timers, c, timer) && (Mine(e, c) ==> timer == Some(e.addr) && !e.recurring)
    ensures ArmedOnly(Insert(timers, e), c, timer)
  {
    InsertElements(timers, e);
    forall x | x in Insert(timers, e) && Mine(x, c) ensures timer == Some(x.addr) && !x.recurring {
      assert x in multiset(Insert(timers, e));
    }
  }

  lemma {:induction false} RearmArmed(expired: seq<Entry<Callback>>, rest: seq<Entry<Callback>>, now: uint64,
                                      c: Call, timer: Option<nat>)
    requires ArmedOnly(expired, c, timer) && ArmedOnly(rest, c, timer)
    ensures ArmedOnly(Rearm(expired, rest, now), c, timer)
    decreases |expired|
  {
    if expired != [] {
      var e := expired[0];
      assert e in expired;
      assert ArmedOnly(expired[1..], c, timer);
      if e.recurring {
        InsertArmed(rest, Rearmed(e, now), c, timer);
        RearmArmed(expired[1..], Insert(rest, Rearmed(e, now)), now, c, timer);
      } else {
        RearmArmed(expired[1..], rest, now, c, timer);
      }
    }
  }

  /** What an operation hands over for a fiber comes out of its slots. */
  lemma SlotsGive(t: E.Table, op: E.Op, k: Cont)
    requires E.Inv(t) && !E.Aborts(t, op) && (op.OpAdd? ==> op.cont != k)
    ensures
      var f := E.Apply(t, op);
      E.Inv(f.table) && E.Slots(f.table)[k] + multiset(f.handed)[k] <= E.Slots(t)[k]
  {
    E.ApplyKeeps(t, op);
    StoresNone(t, op, k);
    KeptCount(t, E.Apply(t, op), k);
  }

  lemma StoresNone(t: E.Table, op: E.Op, k: Cont)
    requires |t.fds| >= 32 && (op.OpAdd? ==> op.cont != k)
    ensures E.Apply(t, op).stored[k] == 0
  {
  }

  lemma KeptCount(t: E.Table, f: E.Effect, k: Cont)
    requires E.Keeps(t, f) && f.stored[k] == 0
    ensures E.Slots(f.table)[k] + multiset(f.handed)[k] <= E.Slots(t)[k]
  {
    assert (E.Slots(f.table) + (multiset(f.handed) + f.dropped))[k] == (E.Slots(t) + f.stored)[k];
  }

  lemma TableActs(w: World, op: E.Op, c: Call)
    requires E.Inv(w.table) && !E.Aborts(w.table, op) && (op.OpAdd? ==> Foreign(op.cont, c))
    ensures
      var f := E.Apply(w.table, op);
      E.Inv(f.table) && Pending(w.(table := f.table, queue := w.queue + f.handed), c) <= Pending(w, c)
  {
    SlotsGive(w.table, op, FiberCont(c.self));
    QueueGrows(w.queue, E.Apply(w.table, op).handed, FiberCont(c.self));
  }

  lemma QueueGrows(q: seq<Cont>, more: seq<Cont>, k: Cont)
    ensures multiset(q + more)[k] == multiset(q)[k] + multiset(more)[k]
  {
    assert multiset(q + more) == multiset(q) + multiset(more);
  }

  lemma QueueActs(w: World, k: nat, c: Call)
    requires k < |w.queue|
    ensures Pending(w.(queue := RemoveAt(w.queue, k)), c) + (if w.queue[k] == FiberCont(c.self) then 1 else 0) ==
            Pending(w, c)
  {
    assert w.queue == w.queue[..k] + [w.queue[k]] + w.queue[k + 1..];
    assert multiset(w.queue) == multiset(RemoveAt(w.queue, k)) + multiset{w.queue[k]};
  }

  lemma ExpireActs(w: World, cbs: seq<Callback>, c: Call)
    ensures multiset(w.queue + AsCalls(cbs))[FiberCont(c.self)] == multiset(w.queue)[FiberCont(c.self)]
  {
    assert multiset(w.queue + AsCalls(cbs)) == multiset(w.queue) + multiset(AsCalls(cbs));
    assert FiberCont(c.self) !in AsCalls(cbs);
  }

  lemma TimeoutActs(w: World, call: nat, fd: nat, e: Event, c: Call, timer: Option<nat>, wakeUps: nat, mark: nat)
    requires InCall(w, c, timer, wakeUps, mark)
    ensures InCall(RunTimeout(w, call, fd, e), c, timer, wakeUps, mark)
  {
    if call in w.info {
      assert (w.log + [call])[mark..] == w.log[mark..] + [call];
      assert Recorded(RunTimeout(w, call, fd, e), c, mark);
    }
  }

  /** Nothing that others do gives the call a wake-up, a timer, or an errno without its timer callback. */
  lemma OthersKeep(w: World, o: Other, c: Call, timer: Option<nat>, wakeUps: nat, mark: nat)
    requires InCall(w, c, timer, wakeUps, mark)
    ensures InCall(Act(w, o, c), c, timer, wakeUps, mark)
  {
    if Allowed(w, o, c) {
      match o
      case Operate(op) => TableActs(w, op, c);
      case Expire(now) =>
        var k := ExpireCount(w.timers, now, w.previous);
        RearmArmed(w.timers[..k], w.timers[k..], now, c, timer);
        ExpireActs(w, Callbacks(w.timers[..k]), c);
      case Arm(ms, now, recurring, cb) =>
        InsertArmed(w.timers, Entry(Add64(now, ms), w.nextAddr, ms, recurring, cb), c, timer);
      case Disarm(k) =>
      case Finish(k, willing) => TableActs(w, E.OpCancel(w.cancelling[k].fd, w.cancelling[k].event, willing), c);
      case Run(k) => RunKeeps(w, k, c, timer, wakeUps, mark);
    }
  }

  lemma RunKeeps(w: World, k: nat, c: Call, timer: Option<nat>, wakeUps: nat, mark: nat)
    requires InCall(w, c, timer, wakeUps, mark) && Allowed(w, Run(k), c)
    ensures InCall(Act(w, Run(k), c), c, timer, wakeUps, mark)
  {
    QueueActs(w, k, c);
    var w1 := w.(queue := RemoveAt(w.queue, k));
    assert InCall(w1, c, timer, wakeUps, mark);
    match w.queue[k]
    case FiberCont(_) =>
    case CallCont(cb) =>
      match cb
      case User(_) =>
      case Wake(f) => assert multiset(w1.queue + [FiberCont(f)]) == multiset(w1.queue) + multiset{FiberCont(f)};
      case Timeout(call, fd, e) => TimeoutActs(w1, call, fd, e, c, timer, wakeUps, mark);
  }

  lemma {:induction false} OthersKeepAll(w: World, os: seq<Other>, c: Call, timer: Option<nat>, wakeUps: nat, mark: nat)
    requires InCall(w, c, timer, wakeUps, mark)
    ensures InCall(ActAll(w, os, c), c, timer, wakeUps, mark)
    decreases |os|
  {
    if os != [] {
      OthersKeep(w, os[0], c, timer, wakeUps, mark);
      OthersKeepAll(Act(w, os[0], c), os[1..], c, timer, wakeUps, mark);
    }
  }
}

/** `do_io` and `connect_with_timeout`: on every exit, nothing of the call is left registered or armed. */
module HookedCall {
  import opened Tasks
  import opened Timers
  import opened Hook

  /** The result of a system call, with errno. */
  datatype Result = Result(n: int, errno: int)

  /** What surrounds one attempt: the results of the system call, and what others do at each point. */
  datatype Turn = Turn(
    before: seq<Other>, results: seq<Result>, now: uint64,
    armed: seq<Other>, willing: bool, ctlErrno: int,
    parked: seq<Other>, resumed: seq<Other>, settled: seq<Other>)

  /** What the hooks know of the descriptor. */
  datatype Context = Unhooked | Unknown | Known(closed: bool, isSocket: bool, userNonblock: bool)

  /** The call goes through the protocol. */
  predicate Protocol(x: Context) {
    x.Known? && !x.closed && x.isSocket && !x.userNonblock
  }

  /** The first result that is no interruption. */
  function FirstResult(results: seq<Result>): Option<Result> {
    if results == [] then None
    else if results[0] == Result(-1, EINTR) then FirstResult(results[1..])
    else Some(results[0])
  }

  /** The system call of a round would block. */
  predicate Blocks(t: Turn) {
    FirstResult(t.results) == Some(Result(-1, EAGAIN))
  }

  datatype Wait = Refused | Woken | Parked | Asserted

  /** How a call ends; `Waiting` and `Aborted` are no exits. */
  datatype Exit =
    | Passed(r: Result)          // what the system call returned
    | Closed                     // -1 with EBADF
    | Unregistered(errno: int)   // -1, `addEvent` failed
    | TimedOut(errno: int)       // -1 with the errno of the record
    | Waiting                    // not over yet
    | Aborted                    // the assertion of `addEvent` failed

  predicate Over(x: Exit) { !x.Waiting? && !x.Aborted? }

  /** Before the call: no wake-up of the fiber is anywhere, and the call is new. */
  ghost predicate Unstarted(w: World, c: Call) {
    E.Inv(w.table) && ArmedOnly(w.timers, c, None) && Pending(w, c) == 0 && c.id !in w.info
  }

  /** After the call: no slot and no queue entry resumes the fiber, no timer of the call is armed, no record is left. */
  ghost predicate LeftNothing(w: World, c: Call) {
    Unstarted(w, c)
  }

  /** The set without one timer; no two timers of a set have the same identity. */
  function Without(timers: seq<Entry<Callback>>, addr: nat): (r: seq<Entry<Callback>>)
    ensures forall e :: e in r <==> e in timers && e.addr != addr
  {
    if timers == [] then []
    else if timers[0].addr == addr then Without(timers[1..], addr)
    else [timers[0]] + Without(timers[1..], addr)
  }

  /** The first position of `k`, or the length. */
  function IndexOf(q: seq<Cont>, k: Cont): (i: nat)
    ensures i <= |q| && (i < |q| ==> q[i] == k) && (i == |q| ==> k !in q)
  {
    if q == [] || q[0] == k then 0 else 1 + IndexOf(q[1..], k)
  }

  /** What one round says of the end of the call. */
  ghost predicate Decides(e: Exit, w: World, c: Call, t: Turn, mark: nat) {
    match e
    case Passed(r) =>
      && LeftNothing(w, c) && FirstResult(t.results) == Some(r) && !Blocks(t)
      && mark <= |w.log| && (t.before == [] ==> c.id !in w.log[mark..])
    case Unregistered(_) => LeftNothing(w, c) && Blocks(t)
    case TimedOut(errno) =>
      LeftNothing(w, c) && Blocks(t) && errno == ETIMEDOUT && mark <= |w.log| && c.id in w.log[mark..]
    case Waiting => FirstResult(t.results).None? || (Blocks(t) && FiberCont(c.self) !in w.queue)
    case Aborted => Blocks(t) && E.Software(w.table.fds, c.fd).Has(c.event)
    case Closed => false
  }

  /** The rounds before this one would have blocked. */
  predicate Retried(turns: seq<Turn>, rounds: nat) {
    rounds <= |turns| && forall i | 0 <= i < rounds :: Blocks(turns[i])
  }

  /** The last round decides; or all would have blocked, and the call still waits. */
  ghost predicate Ended(e: Exit, w: World, c: Call, turns: seq<Turn>, rounds: nat, mark: nat) {
    || (rounds == |turns| && e.Waiting? && Retried(turns, rounds))
    || (0 < rounds <= |turns| && Retried(turns, rounds - 1) && Decides(e, w, c, turns[rounds - 1], mark))
  }

  /** In none of these worlds has the timer callback of the call run since `mark`. */
  predicate Untimed(ws: seq<World>, c: Call, mark: nat) {
    forall i | 0 <= i < |ws| :: mark <= |ws[i].log| && c.id !in ws[i].log[mark..]
  }

  lemma OneMoreRound(turns: seq<Turn>, rounds: nat)
    requires Retried(turns, rounds) && rounds < |turns|
    ensures Retried(turns, rounds + 1) <==> Blocks(turns[rounds])
  {
  }

  lemma OneMoreStart(ws: seq<World>, w: World, c: Call, mark: nat)
    requires Untimed(ws, c, mark) && Recorded(w, c, mark) && w.info[c.id] == 0
    ensures Untimed(ws + [w], c, mark)
  {
  }

  // ----- One wait, on values -----

  /** With the timer of the call armed, where there is a timeout. */
  function Timed(w: World, c: Call, to: uint64, now: uint64): World {
    if to == NONE64 then w
    else
      var e := Entry(Add64(now, to), w.nextAddr, to, false, TimeoutOf(c));
      w.(timers := Insert(w.timers, e), nextAddr := w.nextAddr + 1)
  }

  function Disarmed(w: World, timer: Option<nat>): World {
    if timer.None? then w else w.(timers := Without(w.timers, timer.value))
  }

  /** The registration of the calling fiber. */
  function Registration(w: World, c: Call, willing: bool): E.Effect
    requires |w.table.fds| >= 32
  {
    E.AddEvent(w.table, c.fd, c.event, FiberCont(c.self), willing)
  }

  /** The fiber goes on, with its wake-up taken from the queue. */
  function Resumed(w: World, c: Call): World {
    var i := IndexOf(w.queue, FiberCont(c.self));
    if i < |w.queue| then w.(queue := RemoveAt(w.queue, i)) else w
  }

  /** Arm, register, park, and disarm, with what others do at each point. */
  function Waited(w: World, c: Call, to: uint64, t: Turn): (World, Wait) {
    var timer := if to == NONE64 then None else Some(w.nextAddr);
    var w1 := ActAll(Timed(w, c, to, t.now), t.armed, c);
    if |w1.table.fds| < 32 || E.Software(w1.table.fds, c.fd).Has(c.event) then (w1, Asserted)
    else
      var f := Registration(w1, c, t.willing);
      var w2 := w1.(table := f.table);
      if !f.ok then (Disarmed(w2, timer), Refused)
      else
        var w3 := ActAll(w2, t.parked, c);
        if FiberCont(c.self) !in w3.queue then (w3, Parked)
        else (Disarmed(ActAll(Resumed(w3, c), t.resumed, c), timer), Woken)
  }

  class Reactor {
    var w: World

    constructor (w: World)
      ensures this.w == w
    {
      this.w := w;
    }

    method Others(os: seq<Other>, c: Call, ghost timer: Option<nat>, ghost wakeUps: nat, ghost mark: nat)
      requires InCall(w, c, timer, wakeUps, mark)
      modifies this
      ensures InCall(w, c, timer, wakeUps, mark) && w == ActAll(old(w), os, c)
    {
      OthersKeepAll(w, os, c, timer, wakeUps, mark);
      w := ActAll(w, os, c);
    }

    /** `addConditionTimer` with the callback of the call, where there is a timeout. */
    method AddConditionTimer(c: Call, to: uint64, now: uint64, ghost mark: nat) returns (timer: Option<nat>)
      requires InCall(w, c, None, 0, mark)
      modifies this
      ensures InCall(w, c, timer, 0, mark) && timer == (if to == NONE64 then None else Some(old(w.nextAddr)))
      ensures w == Timed(old(w), c, to, now)
    {
      if to == NONE64 {
        return None;
      }
      var e := Entry(Add64(now, to), w.nextAddr, to, false, TimeoutOf(c));
      timer := Some(w.nextAddr);
      InsertArmed(w.timers, e, c, timer);
      w := w.(timers := Insert(w.timers, e), nextAddr := w.nextAddr + 1);
    }

    /** `timer->cancel()`, where there is a timer. */
    method CancelTimer(c: Call, timer: Option<nat>, ghost wakeUps: nat, ghost mark: nat)
      requires InCall(w, c, timer, wakeUps, mark)
      modifies this
      ensures InCall(w, c, None, wakeUps, mark)
      ensures w == Disarmed(old(w), timer)
    {
      if timer.Some? {
        w := w.(timers := Without(w.timers, timer.value));
      }
    }

    /** `addEvent` without a callback: the slot takes the calling fiber. */
    method AddEvent(c: Call, willing: bool, ghost timer: Option<nat>, ghost mark: nat) returns (rt: int)
      requires InCall(w, c, timer, 0, mark) && !E.Software(w.table.fds, c.fd).Has(c.event)
      modifies this
      ensures
        var f := Registration(old(w), c, willing);
        w == old(w).(table := f.table) && rt == if f.ok then 0 else -1
      ensures InCall(w, c, timer, if rt == 0 then 1 else 0, mark)
    {
      var f := E.AddEvent(w.table, c.fd, c.event, FiberCont(c.self), willing);
      Registers(w, c, willing);
      w := w.(table := f.table);
      rt := if f.ok then 0 else -1;
    }

    /** `YieldToHold`: the fiber goes on when its wake-up is taken from the queue, after what others did meanwhile. */
    method YieldToHold(c: Call, parked: seq<Other>, ghost timer: Option<nat>, ghost mark: nat) returns (resumed: bool)
      requires InCall(w, c, timer, 1, mark)
      modifies this
      ensures InCall(w, c, timer, if resumed then 0 else 1, mark) && FiberCont(c.self) !in w.queue
      ensures resumed <==> FiberCont(c.self) in ActAll(old(w), parked, c).queue
      ensures w == Resumed(ActAll(old(w), parked, c), c)
    {
      Others(parked, c, timer, 1, mark);
      var i := IndexOf(w.queue, FiberCont(c.self));
      resumed := i < |w.queue|;
      if resumed {
        QueueActs(w, i, c);
        w := w.(queue := RemoveAt(w.queue, i));
        assert FiberCont(c.self) !in multiset(w.queue);
      }
    }

    /** Arm, register, park, and disarm: one wait of a call. */
    method WaitForEvent(c: Call, to: uint64, t: Turn, ghost mark: nat) returns (r: Wait)
      requires InCall(w, c, None, 0, mark)
      modifies this
      ensures (w, r) == Waited(old(w), c, to, t)
      ensures r.Refused? || r.Woken? ==> InCall(w, c, None, 0, mark)
      ensures r.Asserted? ==> E.Software(w.table.fds, c.fd).Has(c.event)
      ensures r.Parked? ==> FiberCont(c.self) !in w.queue
      ensures mark <= |w.log|
    {
      var timer := AddConditionTimer(c, to, t.now, mark);
      Others(t.armed, c, timer, 0, mark);
      if E.Software(w.table.fds, c.fd).Has(c.event) {
        return Asserted;
      }
      var rt := AddEvent(c, t.willing, timer, mark);
      if rt != 0 {
        CancelTimer(c, timer, 0, mark);
        return Refused;
      }
      var resumed := YieldToHold(c, t.parked, timer, mark);
      if !resumed {
        return Parked;
      }
      Others(t.resumed, c, timer, 0, mark);
      CancelTimer(c, timer, 0, mark);
      return Woken;
    }

    /** The record of the call dies with the call. */
    method Release(c: Call, ghost mark: nat)
      requires InCall(w, c, None, 0, mark)
      modifies this
      ensures LeftNothing(w, c) && w.log == old(w.log)
    {
      w := w.(info := w.info - {c.id});
    }

    /** One round of `do_io`, from the system call to the retry: how the call ends, if it does. */
    method Attempt(c: Call, to: uint64, t: Turn, ghost mark: nat) returns (e: Option<Exit>)
      requires InCall(w, c, None, 0, mark) && w.info[c.id] == 0
      modifies this
      ensures mark <= |w.log|
      ensures if e.None? then Blocks(t) && InCall(w, c, None, 0, mark) && w.info[c.id] == 0
              else Decides(e.value, w, c, t, mark)
    {
      Others(t.before, c, None, 0, mark);
      var r := Retry(t.results);
      if r.None? {
        return Some(Waiting);
      }
      if !(r.value.n == -1 && r.value.errno == EAGAIN) {
        Release(c, mark);
        return Some(Passed(r.value));
      }
      var wait := WaitForEvent(c, to, t, mark);
      match wait {
        case Asserted => return Some(Aborted);
        case Parked => return Some(Waiting);
        case Refused =>
          Release(c, mark);
          return Some(Unregistered(t.ctlErrno));
        case Woken =>
          e := Cancelled(c, t, mark);
      }
    }

    /** The check of the record after a wait. */
    method Cancelled(c: Call, t: Turn, ghost mark: nat) returns (e: Option<Exit>)
      requires InCall(w, c, None, 0, mark)
      modifies this
      ensures mark <= |w.log|
      ensures e.None? ==> InCall(w, c, None, 0, mark) && w.info[c.id] == 0
      ensures e.Some? ==> LeftNothing(w, c) && e.value == TimedOut(ETIMEDOUT) && c.id in w.log[mark..]
    {
      Others(t.settled, c, None, 0, mark);
      var errno := w.info[c.id];
      if errno == 0 {
        return None;
      }
      Release(c, mark);
      return Some(TimedOut(errno));
    }

    /** The retry loop; `starts` are the worlds in which its rounds start. */
    method Rounds(c: Call, to: uint64, turns: seq<Turn>, ghost mark: nat)
      returns (e: Exit, rounds: nat, ghost starts: seq<World>)
      requires InCall(w, c, None, 0, mark) && w.info[c.id] == 0
      modifies this
      ensures mark <= |w.log| && Ended(e, w, c, turns, rounds, mark)
      ensures |starts| == rounds && Untimed(starts, c, mark)
    {
      rounds, starts := 0, [];
      while rounds < |turns|
        invariant Retried(turns, rounds) && InCall(w, c, None, 0, mark) && w.info[c.id] == 0
        invariant |starts| == rounds && Untimed(starts, c, mark)
      {
        OneMoreStart(starts, w, c, mark);
        starts := starts + [w];
        var end := Attempt(c, to, turns[rounds], mark);
        OneMoreRound(turns, rounds);
        rounds := rounds + 1;
        if end.Some? {
          e := end.value;
          return;
        }
      }
      e := Waiting;
    }

    /** `do_io`, and the number of rounds it took. */
    method DoIo(c: Call, x: Context, to: uint64, turns: seq<Turn>)
      returns (e: Exit, rounds: nat, ghost starts: seq<World>)
      requires Unstarted(w, c)
      modifies this
      ensures Over(e) ==> LeftNothing(w, c)
      ensures e.Closed? <==> x.Known? && x.closed
      ensures !Protocol(x) ==> w == old(w) && rounds == 0
      ensures !Protocol(x) && e.Passed? ==> turns != [] && turns[0].results != [] && e.r == turns[0].results[0]
      // every round but the last would have blocked, and was waited for; the last one decides
      ensures |old(w.log)| <= |w.log|
      ensures Protocol(x) ==> Ended(e, w, c, turns, rounds, |old(w.log)|)
      ensures e.TimedOut? ==> e.errno == ETIMEDOUT && c.id in w.log[|old(w.log)|..]
      // no round starts once the timer callback has run: a wait that it ended is reported, never retried
      ensures |starts| == rounds && Untimed(starts, c, |old(w.log)|)
    {
      rounds, starts := 0, [];
      if x.Known? && x.closed {
        e := Closed;
      } else if !Protocol(x) {
        e := if turns == [] || turns[0].results == [] then Waiting else Passed(turns[0].results[0]);
      } else {
        ghost var mark := |w.log|;
        w := w.(info := w.info[c.id := 0]);
        e, rounds, starts := Rounds(c, to, turns, mark);
      }
    }

    /** `connect_with_timeout`, and whether it waited to the end. */
    method ConnectWithTimeout(c: Call, x: Context, to: uint64, first: Result, t: Turn, getsockopt: Result, soError: int)
      returns (e: Exit, waited: bool)
      requires Unstarted(w, c) && c.event == WRITE
      modifies this
      ensures Over(e) ==> LeftNothing(w, c)
      ensures !Protocol(x) || first != Result(-1, EINPROGRESS) ==> w == old(w) && e == Passed(first) && !waited
      ensures e.Aborted? ==> E.Software(w.table.fds, c.fd).Has(WRITE)
      ensures e.Waiting? ==> FiberCont(c.self) !in w.queue
      ensures |old(w.log)| <= |w.log|
      ensures e.TimedOut? ==> e.errno == ETIMEDOUT && c.id in w.log[|old(w.log)|..]
      ensures Protocol(x) && first == Result(-1, EINPROGRESS) && e.Passed? ==>
        e.r == if getsockopt.n == -1 then getsockopt else if soError == 0 then Result(0, 0) else Result(-1, soError)
      // a wait that the timer ended is reported as such
      ensures waited && e.Passed? ==> c.id !in w.log[|old(w.log)|..]
      ensures !e.Closed? && !e.Unregistered?
    {
      waited := false;
      if !Protocol(x) || first != Result(-1, EINPROGRESS) {
        e := Passed(first);
        return;
      }
      ghost var mark := |w.log|;
      w := w.(info := w.info[c.id := 0]);
      var wait := WaitForEvent(c, to, t, mark);
      if wait == Asserted {
        e := Aborted;
        return;
      }
      if wait == Parked {
        e := Waiting;
        return;
      }
      if wait == Woken {
        waited := true;
        var end := Cancelled(c, t, mark);
        if end.Some? {
          e := end.value;
          return;
        }
      }
      Release(c, mark);
      e := Passed(if getsockopt.n == -1 then getsockopt
                  else if soError == 0 then Result(0, 0)
                  else Result(-1, soError));
    }
  }

  /** The system call, repeated while it is interrupted; no result when it has not returned yet. */
  method Retry(results: seq<Result>) returns (r: Option<Result>)
    ensures r == FirstResult(results)
    ensures r.Some? ==> r.value in results && r.value != Result(-1, EINTR)
    ensures r.None? ==> forall x <- results :: x == Result(-1, EINTR)
  {
    var i := 0;
    while i < |results| && results[i] == Result(-1, EINTR)
      invariant i <= |results| && forall j | 0 <= j < i :: results[j] == Result(-1, EINTR)
      invariant FirstResult(results) == FirstResult(results[i..])
    {
      assert results[i..][1..] == results[i + 1..];
      i := i + 1;
    }
    r := if i < |results| then Some(results[i]) else None;
  }

  lemma Registers(w: World, c: Call, willing: bool)
    requires E.Inv(w.table) && !E.Software(w.table.fds, c.fd).Has(c.event)
    ensures
      var f := E.AddEvent(w.table, c.fd, c.event, FiberCont(c.self), willing);
      E.Inv(f.table) && Pending(w.(table := f.table), c) == Pending(w, c) + if f.ok then 1 else 0
  {
    var f, k := E.AddEvent(w.table, c.fd, c.event, FiberCont(c.self), willing), FiberCont(c.self);
    E.AddKeeps(w.table, c.fd, c.event, k, willing);
    assert (E.Slots(f.table) + (multiset(f.handed) + f.dropped))[k] == (E.Slots(w.table) + f.stored)[k];
  }
}

/** The timeout of a hooked call: what its timer callback ends, what it misses, and when a wait lasts its full time. */
module Timeouts {
  import opened Tasks
  import opened Timers
  import opened Hook
  import opened HookedCall
  import EventRuns

  // ----- What one callback does -----

  /** The timer callback of a call, run to its end at once. */
  function RunToEnd(w: World, c: Call, willing: bool): World {
    var w1 := RunTimeout(w, c.id, c.fd, c.event);
    if |w1.cancelling| > |w.cancelling| then FinishCancel(w1, |w.cancelling|, willing) else w1
  }

  /** A cancellation hands over whatever continuation waits for the event, exactly when epoll agrees. */
  lemma CancelTakesIff(w: World, n: nat, k: Cont, willing: bool)
    requires E.Inv(w.table) && n < |w.cancelling|
    requires
      var x := w.cancelling[n];
      x.fd < |w.table.fds| && E.Slot(w.table.fds[x.fd], x.event) == E.Filled(k)
    ensures
      var x, w' := w.cancelling[n], FinishCancel(w, n, willing);
      && (w'.queue == w.queue + [k] <==> willing)
      && (willing ==> !E.Software(w'.table.fds, x.fd).Has(x.event) && E.Slot(w'.table.fds[x.fd], x.event) == E.EMPTY)
      && (!willing ==> w'.table == w.table && w'.queue == w.queue)
      && w'.info == w.info && w'.timers == w.timers && w'.log == w.log
  {
    var x := w.cancelling[n];
    assert E.Consistent(w.table.fds[x.fd]);
    assert E.Interest(w.table.kernel, x.fd) == E.Software(w.table.fds, x.fd);
    E.CancelKeeps(w.table, x.fd, x.event, willing);
    assert w.queue + [k] != w.queue;
  }

  /**
    * Run at once, the timer callback of a call hands the registration that waits to the scheduler exactly when epoll
    * agrees and the record is alive without an errno; otherwise table and queue stay as they are.
    */
  lemma TimeoutWakesIff(w: World, c: Call, k: Cont, willing: bool)
    requires E.Inv(w.table) && c.fd < |w.table.fds| && E.Slot(w.table.fds[c.fd], c.event) == E.Filled(k)
    ensures
      var w' := RunToEnd(w, c, willing);
      && (w'.queue == w.queue + [k] <==> willing && c.id in w.info && w.info[c.id] == 0)
      && if w'.queue == w.queue + [k] then
           !E.Software(w'.table.fds, c.fd).Has(c.event) && E.Slot(w'.table.fds[c.fd], c.event) == E.EMPTY
         else w'.table == w.table && w'.queue == w.queue
    ensures c.id in w.info && w.info[c.id] == 0 ==> RunToEnd(w, c, willing).info == w.info[c.id := ETIMEDOUT]
  {
    var w1 := RunTimeout(w, c.id, c.fd, c.event);
    if c.id in w.info && w.info[c.id] == 0 {
      CancelTakesIff(w1, |w.cancelling|, k, willing);
    } else {
      assert w.queue + [k] != w.queue;
    }
  }

  // ----- When a wait lasts its full time -----

  /** The timer callback of the call, for whatever descriptor. */
  predicate Own(k: Cont, c: Call) {
    k.CallCont? && k.cb.Timeout? && k.cb.call == c.id
  }

  /** No timer callback of the call has been handed out and not run. */
  ghost predicate NoneOutstanding(w: World, c: Call) {
    forall k | Own(k, c) :: E.Slots(w.table)[k] == 0 && k !in w.queue
  }

  /** The one timer of a wait. */
  datatype Alarm = Alarm(next: int, addr: nat)

  /** The timers of the call are at most this one. */
  predicate DueAtOnly(timers: seq<Entry<Callback>>, c: Call, alarm: Option<Alarm>) {
    forall e <- timers :: Mine(e, c) ==> alarm == Some(Alarm(e.next, e.addr))
  }

  /** The record is alive without an errno, and only a timer that is not due yet can change that. */
  ghost predicate Untouched(w: World, c: Call, alarm: Option<Alarm>) {
    && E.Inv(w.table) && NoneOutstanding(w, c) && DueAtOnly(w.timers, c, alarm)
    && c.id in w.info && w.info[c.id] == 0
  }

  /** The clock is read at the deadline or later, or found to have gone back by more than an hour. */
  predicate Reaches(w: World, o: Other, alarm: Option<Alarm>) {
    o.Expire? && alarm.Some? && (Rollover(o.now, w.previous) || alarm.value.next <= o.now)
  }

  predicate ReachesIn(w: World, os: seq<Other>, c: Call, alarm: Option<Alarm>)
    decreases |os|
  {
    os != [] && (Reaches(w, os[0], alarm) || ReachesIn(Act(w, os[0], c), os[1..], c, alarm))
  }

  lemma {:induction false} DuePrefix(s: seq<Entry<Callback>>, now: int)
    ensures forall i | 0 <= i < Due(s, now) :: s[i].next <= now
  {
    if s != [] && s[0].next <= now {
      DuePrefix(s[1..], now);
      assert forall i | 1 <= i < Due(s, now) :: s[i] == s[1..][i - 1];
    }
  }

  /** Before the deadline no timer of the call is handed out. */
  lemma NotHandedOut(w: World, now: uint64, c: Call, alarm: Option<Alarm>)
    requires DueAtOnly(w.timers, c, alarm) && !Reaches(w, Expire(now), alarm)
    ensures forall i | 0 <= i < ExpireCount(w.timers, now, w.previous) :: !Mine(w.timers[i], c)
  {
    DuePrefix(w.timers, now);
  }

  lemma InsertDueAt(timers: seq<Entry<Callback>>, e: Entry<Callback>, c: Call, alarm: Option<Alarm>)
    requires DueAtOnly(timers, c, alarm) && (Mine(e, c) ==> alarm == Some(Alarm(e.next, e.addr)))
    ensures DueAtOnly(Insert(timers, e), c, alarm)
  {
    InsertElements(timers, e);
    forall x | x in Insert(timers, e) && Mine(x, c) ensures alarm == Some(Alarm(x.next, x.addr)) {
      assert x in multiset(Insert(timers, e));
    }
  }

  lemma {:induction false} RearmDueAt(expired: seq<Entry<Callback>>, rest: seq<Entry<Callback>>, now: uint64,
                                      c: Call, alarm: Option<Alarm>)
    requires DueAtOnly(rest, c, alarm) && forall i | 0 <= i < |expired| :: !Mine(expired[i], c)
    ensures DueAtOnly(Rearm(expired, rest, now), c, alarm)
    decreases |expired|
  {
    if expired != [] {
      var e := expired[0];
      assert forall i | 0 <= i < |expired| - 1 :: expired[1..][i] == expired[i + 1];
      if e.recurring {
        InsertDueAt(rest, Rearmed(e, now), c, alarm);
        RearmDueAt(expired[1..], Insert(rest, Rearmed(e, now)), now, c, alarm);
      } else {
        RearmDueAt(expired[1..], rest, now, c, alarm);
      }
    }
  }

  /** Table operations of others bring no callback of the call into being. */
  lemma TableLeaves(w: World, op: E.Op, c: Call)
    requires E.Inv(w.table) && !E.Aborts(w.table, op) && (op.OpAdd? ==> !Own(op.cont, c)) && NoneOutstanding(w, c)
    ensures
      var f := E.Apply(w.table, op);
      E.Inv(f.table) && NoneOutstanding(w.(table := f.table, queue := w.queue + f.handed), c)
  {
    var f := E.Apply(w.table, op);
    E.ApplyKeeps(w.table, op);
    forall k | Own(k, c) ensures E.Slots(f.table)[k] == 0 && k !in w.queue + f.handed {
      SlotsGive(w.table, op, k);
      assert k !in multiset(f.handed);
    }
  }

  lemma ExpireLeaves(w: World, now: uint64, c: Call, alarm: Option<Alarm>)
    requires Untouched(w, c, alarm) && !Reaches(w, Expire(now), alarm)
    ensures Untouched(Act(w, Expire(now), c), c, alarm)
  {
    var n := ExpireCount(w.timers, now, w.previous);
    NotHandedOut(w, now, c, alarm);
    RearmDueAt(w.timers[..n], w.timers[n..], now, c, alarm);
    var cbs := Callbacks(w.timers[..n]);
    forall k | Own(k, c) ensures k !in w.queue + AsCalls(cbs) {
      assert forall i | 0 <= i < n :: AsCalls(cbs)[i] == CallCont(w.timers[i].cb);
    }
  }

  lemma RemovedLeaves(q: seq<Cont>, k: nat, c: Call)
    requires k < |q| && forall x | Own(x, c) :: x !in q
    ensures forall x | Own(x, c) :: x !in RemoveAt(q, k)
  {
  }

  lemma RunLeaves(w: World, k: nat, c: Call, alarm: Option<Alarm>)
    requires Untouched(w, c, alarm) && Allowed(w, Run(k), c)
    ensures Untouched(Act(w, Run(k), c), c, alarm)
  {
    assert !Own(w.queue[k], c);
    RemovedLeaves(w.queue, k, c);
    var w1 := w.(queue := RemoveAt(w.queue, k));
    assert Untouched(w1, c, alarm);
  }

  /** Short of the deadline, nothing that others do gives the call an errno. */
  lemma UntouchedStays(w: World, o: Other, c: Call, alarm: Option<Alarm>)
    requires Untouched(w, c, alarm) && !Reaches(w, o, alarm)
    ensures Untouched(Act(w, o, c), c, alarm)
  {
    if Allowed(w, o, c) {
      match o
      case Operate(op) => TableLeaves(w, op, c);
      case Expire(now) => ExpireLeaves(w, now, c, alarm);
      case Arm(ms, now, recurring, cb) =>
        InsertDueAt(w.timers, Entry(Add64(now, ms), w.nextAddr, ms, recurring, cb), c, alarm);
      case Disarm(k) =>
      case Run(k) => RunLeaves(w, k, c, alarm);
      case Finish(k, willing) => TableLeaves(w, E.OpCancel(w.cancelling[k].fd, w.cancelling[k].event, willing), c);
    }
  }

  lemma {:induction false} UntouchedStaysAll(w: World, os: seq<Other>, c: Call, alarm: Option<Alarm>)
    requires Untouched(w, c, alarm) && !ReachesIn(w, os, c, alarm)
    ensures Untouched(ActAll(w, os, c), c, alarm)
    decreases |os|
  {
    if os != [] {
      UntouchedStays(w, os[0], c, alarm);
      UntouchedStaysAll(Act(w, os[0], c), os[1..], c, alarm);
    }
  }

  function AlarmOf(w: World, to: uint64, now: uint64): Option<Alarm> {
    if to == NONE64 then None else Some(Alarm(Add64(now, to), w.nextAddr))
  }

  /** In the course of the wait, the clock reaches the deadline of its timer. */
  predicate WaitReaches(w: World, c: Call, to: uint64, t: Turn) {
    var d := AlarmOf(w, to, t.now);
    var w1 := Timed(w, c, to, t.now);
    || ReachesIn(w1, t.armed, c, d)
    || var w2 := ActAll(w1, t.armed, c);
       |w2.table.fds| >= 32 &&
       var w3 := w2.(table := Registration(w2, c, t.willing).table);
       || ReachesIn(w3, t.parked, c, d)
       || ReachesIn(Resumed(ActAll(w3, t.parked, c), c), t.resumed, c, d)
  }

  /** The registration of the calling fiber brings no timer callback into being. */
  lemma RegistrationLeaves(w: World, c: Call, willing: bool, alarm: Option<Alarm>)
    requires Untouched(w, c, alarm) && !E.Software(w.table.fds, c.fd).Has(c.event)
    ensures Untouched(w.(table := Registration(w, c, willing).table), c, alarm)
  {
    var op := E.OpAdd(c.fd, c.event, FiberCont(c.self), willing);
    TableLeaves(w, op, c);
    var f := Registration(w, c, willing);
    assert E.Apply(w.table, op) == f;
    E.AddKeeps(w.table, c.fd, c.event, FiberCont(c.self), willing);
    assert w.queue + f.handed == w.queue;
  }

  lemma ResumedLeaves(w: World, c: Call, alarm: Option<Alarm>)
    requires Untouched(w, c, alarm)
    ensures Untouched(Resumed(w, c), c, alarm)
  {
    var q := Resumed(w, c).queue;
    forall k | Own(k, c) ensures k !in q {
    }
  }

  lemma TimedLeaves(w: World, c: Call, to: uint64, now: uint64)
    requires Untouched(w, c, None)
    ensures Untouched(Timed(w, c, to, now), c, AlarmOf(w, to, now))
  {
    if to != NONE64 {
      var e := Entry(Add64(now, to), w.nextAddr, to, false, TimeoutOf(c));
      InsertDueAt(w.timers, e, c, AlarmOf(w, to, now));
    }
  }

  lemma DisarmedLeaves(w: World, c: Call, alarm: Option<Alarm>)
    requires Untouched(w, c, alarm)
    ensures Untouched(Disarmed(w, if alarm.None? then None else Some(alarm.value.addr)), c, None)
  {
  }

  lemma {:induction false} NoneIsNeverReached(w: World, os: seq<Other>, c: Call)
    ensures !ReachesIn(w, os, c, None)
    decreases |os|
  {
    if os != [] {
      NoneIsNeverReached(Act(w, os[0], c), os[1..], c);
    }
  }

  /** The part of a wait from the registration on. */
  lemma ParkLeaves(w: World, c: Call, t: Turn, alarm: Option<Alarm>)
    requires Untouched(w, c, alarm)
    requires !ReachesIn(w, t.parked, c, alarm) && !ReachesIn(Resumed(ActAll(w, t.parked, c), c), t.resumed, c, alarm)
    ensures Untouched(ActAll(Resumed(ActAll(w, t.parked, c), c), t.resumed, c), c, alarm)
  {
    UntouchedStaysAll(w, t.parked, c, alarm);
    ResumedLeaves(ActAll(w, t.parked, c), c, alarm);
    UntouchedStaysAll(Resumed(ActAll(w, t.parked, c), c), t.resumed, c, alarm);
  }

  /** A wait that was ended before its alarm leaves no errno. */
  lemma WaitLeaves(w: World, c: Call, to: uint64, t: Turn)
    requires Untouched(w, c, None) && !WaitReaches(w, c, to, t)
    ensures Waited(w, c, to, t).1.Woken? ==> Untouched(Waited(w, c, to, t).0, c, None)
  {
    var alarm := AlarmOf(w, to, t.now);
    var w1 := Timed(w, c, to, t.now);
    TimedLeaves(w, c, to, t.now);
    UntouchedStaysAll(w1, t.armed, c, alarm);
    var w2 := ActAll(w1, t.armed, c);
    if !E.Software(w2.table.fds, c.fd).Has(c.event) {
      RegistrationLeaves(w2, c, t.willing, alarm);
      var w3 := w2.(table := Registration(w2, c, t.willing).table);
      ParkLeaves(w3, c, t, alarm);
      DisarmedLeaves(ActAll(Resumed(ActAll(w3, t.parked, c), c), t.resumed, c), c, alarm);
    }
  }

  /**
    * A wait that starts with no timer callback of its call outstanding is ended by ETIMEDOUT only after the clock has
    * reached its deadline, or gone back; without a timeout it never is.
    */
  lemma TimeoutIsFull(w: World, c: Call, to: uint64, t: Turn)
    requires Untouched(w, c, None) && Waited(w, c, to, t).1.Woken?
    ensures
      var e := ActAll(Waited(w, c, to, t).0, t.settled, c);
      (c.id in e.info && e.info[c.id] == 0) || WaitReaches(w, c, to, t)
    ensures to == NONE64 ==> !WaitReaches(w, c, to, t)
  {
    var w1 := Timed(w, c, to, t.now);
    if to == NONE64 {
      NoneIsNeverReached(w1, t.armed, c);
      var w2 := ActAll(w1, t.armed, c);
      if |w2.table.fds| >= 32 {
        var w3 := w2.(table := Registration(w2, c, t.willing).table);
        NoneIsNeverReached(w3, t.parked, c);
        NoneIsNeverReached(Resumed(ActAll(w3, t.parked, c), c), t.resumed, c);
      }
    }
    if !WaitReaches(w, c, to, t) {
      WaitLeaves(w, c, to, t);
      var e := Waited(w, c, to, t).0;
      NoneIsNeverReached(e, t.settled, c);
      UntouchedStaysAll(e, t.settled, c, None);
    }
  }
}

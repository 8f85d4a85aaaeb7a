/** Runs in which the timeout of a hooked call is lost, comes too early, or hits another call. */
module TimeoutLimits {
  import opened Tasks
  import opened Timers
  import opened Hook
  import opened HookedCall
  import opened Timeouts

  /** A wait in which the callback at position `i` of the queue runs, and is the `n`-th to cancel. */
  function StaleWhileParked(now: uint64, i: nat, n: nat): Turn {
    Turn([], [Result(-1, EAGAIN)], now, [], true, 0, [Run(i), Finish(n, true)], [], [])
  }

  lemma TwoActs(w: World, a: Other, b: Other, c: Call)
    ensures ActAll(w, [a, b], c) == Act(Act(w, a, c), b, c)
  {
    assert [a, b][1..] == [b];
    OneAct(Act(w, a, c), b, c);
  }

  lemma OneAct(w: World, a: Other, c: Call)
    ensures ActAll(w, [a], c) == Act(w, a, c)
  {
    assert [a][1..] == [];
  }

  /** A wait in which the registration succeeds, and nothing happens before it or after the fiber goes on. */
  lemma WaitGoes(w: World, c: Call, to: uint64, t: Turn, parked: World)
    requires t.armed == [] && t.resumed == [] && t.willing && |w.table.fds| >= 32
    requires !E.Software(w.table.fds, c.fd).Has(c.event) && Registration(w, c, true).ok
    requires
      var w1 := Timed(w, c, to, t.now);
      parked == ActAll(w1.(table := Registration(w, c, true).table), t.parked, c)
    ensures
      Waited(w, c, to, t) ==
      if FiberCont(c.self) !in parked.queue then (parked, Parked)
      else (Disarmed(Resumed(parked, c), if to == NONE64 then None else Some(w.nextAddr)), Woken)
  {
  }

  /** Without an expiry no alarm is reached. */
  lemma {:induction false} NoExpiryNoAlarm(w: World, os: seq<Other>, c: Call, alarm: Option<Alarm>)
    requires forall o <- os :: !o.Expire?
    ensures !ReachesIn(w, os, c, alarm)
    decreases |os|
  {
    if os != [] {
      NoExpiryNoAlarm(Act(w, os[0], c), os[1..], c, alarm);
    }
  }

  lemma RegistersSelf(w: World, c: Call)
    requires E.Inv(w.table) && !E.Software(w.table.fds, c.fd).Has(c.event) && !EventRuns.Stuck(w.table, c.fd)
    ensures
      var f := Registration(w, c, true);
      f.ok && E.Inv(f.table) && c.fd < |f.table.fds|
        && E.Slot(f.table.fds[c.fd], c.event) == E.Filled(FiberCont(c.self))
  {
    EventRuns.AddSucceedsIff(w.table, c.fd, c.event, FiberCont(c.self), true);
    E.AddKeeps(w.table, c.fd, c.event, FiberCont(c.self), true);
  }

  /** The callback of the call runs, and cancels the registration of the call. */
  lemma StaleRuns(w: World, c: Call, i: nat)
    requires E.Inv(w.table) && i < |w.queue| && w.queue[i] == CallCont(TimeoutOf(c)) && FiberCont(c.self) !in w.queue
    requires c.id in w.info && w.info[c.id] == 0
    requires c.fd < |w.table.fds| && E.Slot(w.table.fds[c.fd], c.event) == E.Filled(FiberCont(c.self))
    ensures
      var w2 := Act(Act(w, Run(i), c), Finish(|w.cancelling|, true), c);
      w2.queue == RemoveAt(w.queue, i) + [FiberCont(c.self)] && w2.info == w.info[c.id := ETIMEDOUT]
  {
    var w1 := Act(w, Run(i), c);
    assert w1.cancelling == w.cancelling + [Cancel(c.fd, c.event)] && w1.table == w.table;
    CancelTakesIff(w1, |w.cancelling|, FiberCont(c.self), true);
  }

  /**
    * The other half of `TimeoutIsFull`: where a timer callback of the call is outstanding, a wait can be ended by
    * ETIMEDOUT however far its own deadline is away.
    */
  lemma StaleEndsWait(w: World, c: Call, to: uint64, now: uint64, i: nat)
    requires E.Inv(w.table) && !E.Software(w.table.fds, c.fd).Has(c.event) && !EventRuns.Stuck(w.table, c.fd)
    requires i < |w.queue| && w.queue[i] == CallCont(TimeoutOf(c)) && FiberCont(c.self) !in w.queue
    requires c.id in w.info && w.info[c.id] == 0
    ensures
      var t := StaleWhileParked(now, i, |w.cancelling|);
      var r := Waited(w, c, to, t);
      r.1.Woken? && c.id in r.0.info && r.0.info[c.id] == ETIMEDOUT && !WaitReaches(w, c, to, t)
  {
    var t := StaleWhileParked(now, i, |w.cancelling|);
    var w1 := Timed(w, c, to, now);
    RegistersSelf(w1, c);
    var w2 := w1.(table := Registration(w1, c, true).table);
    StaleRuns(w2, c, i);
    TwoActs(w2, Run(i), Finish(|w.cancelling|, true), c);
    var w3 := ActAll(w2, t.parked, c);
    assert w3.queue[|w3.queue| - 1] == FiberCont(c.self);
    WaitGoes(w, c, to, t, w3);
    NoAlarmInStale(w, c, to, t);
  }

  lemma NoAlarmInStale(w: World, c: Call, to: uint64, t: Turn)
    requires t.armed == [] && t.resumed == [] && forall o <- t.parked :: !o.Expire?
    ensures !WaitReaches(w, c, to, t)
  {
    var alarm, w1 := AlarmOf(w, to, t.now), Timed(w, c, to, t.now);
    if |w1.table.fds| >= 32 {
      NoExpiryNoAlarm(w1.(table := Registration(w1, c, t.willing).table), t.parked, c, alarm);
    }
  }

  // ----- One reader -----

  const READER := Call(7, 1, 3, READ)

  /** The call reads with a timeout of 10 ms. */
  function Reading(): World { World(E.Initial(), [], 0, 0, [], map[READER.id := 0], [], []) }

  /** The timer is handed out; before its callback runs, the descriptor is readable, and the fiber goes on. */
  function ReadyInTime(): Turn {
    Turn([], [Result(-1, EAGAIN)], 0, [], true, 0, [Expire(20), Operate(E.OpDispatch(3, {E.EPOLLIN}, true))], [], [])
  }

  /**
    * The read would block again. The callback of the first wait runs before the second registration; that of the
    * second wait finds the errno set.
    */
  function StaleFirst(): Turn {
    Turn([], [Result(-1, EAGAIN)], 30, [Run(0), Finish(0, true)], true, 0, [Expire(50), Run(0)], [], [])
  }

  /** What the first wait leaves behind: its callback, queued. */
  ghost predicate AfterFirst(w: World) {
    && w.timers == [] && w.nextAddr == 1 && w.previous == 20 && w.queue == [CallCont(TimeoutOf(READER))]
    && w.info == map[READER.id := 0] && w.cancelling == [] && w.log == [] && Vacant(w.table)
  }

  /** Nobody is registered on descriptor 3. */
  ghost predicate Vacant(t: E.Table) {
    E.Inv(t) && |t.fds| == 32 && t.fds[3] == E.FRESH && 3 !in t.kernel
  }

  /** The fiber of the reader is, for READ. */
  ghost predicate Occupied(t: E.Table) {
    && E.Inv(t) && |t.fds| == 32 && 3 in t.kernel
    && t.fds[3] == E.FdView(E.Mask(true, false), E.Filled(FiberCont(1)), E.EMPTY)
  }

  /** The only timer, past its deadline, is handed out. */
  lemma HandsOut(w: World, c: Call, cb: Callback, now: uint64)
    requires |w.timers| == 1 && w.timers[0].cb == cb && !w.timers[0].recurring && w.queue == []
    requires w.previous <= now && w.timers[0].next < now
    ensures Act(w, Expire(now), c) == w.(timers := [], queue := [CallCont(cb)], previous := now)
  {
    assert Due(w.timers[1..], now) == 0 && ExpireCount(w.timers, now, w.previous) == 1;
    assert Rearm(w.timers, [], now) == Rearm(w.timers[1..], [], now) == [];
    assert w.timers[..1] == w.timers && w.timers[1..] == [];
    assert [] + AsCalls(Callbacks(w.timers)) == [CallCont(cb)];
  }

  lemma ReaderRegisters(w: World)
    requires Vacant(w.table)
    ensures Registration(w, READER, true).ok && Occupied(Registration(w, READER, true).table)
  {
    E.AddKeeps(w.table, 3, READ, FiberCont(1), true);
  }

  lemma ReadyDispatches(t: E.Table)
    requires Occupied(t)
    ensures
      var f := E.Dispatch(t, 3, {E.EPOLLIN}, true);
      Vacant(f.table) && f.handed == [FiberCont(1)] && !E.Aborts(t, E.OpDispatch(3, {E.EPOLLIN}, true))
  {
    assert E.Ready({E.EPOLLIN}) == E.Mask(true, false);
    assert t.fds[3].events.Minus(E.Mask(true, false)) == E.NONE;
    assert E.TriggerBoth(t.fds[3], E.Mask(true, false)) == E.FRESH;
    E.DispatchKeeps(t, 3, {E.EPOLLIN}, true);
  }

  lemma DescriptorReady(w: World)
    requires Occupied(w.table)
    ensures
      var w' := Act(w, Operate(E.OpDispatch(3, {E.EPOLLIN}, true)), READER);
      w' == w.(table := w'.table, queue := w.queue + [FiberCont(1)]) && Vacant(w'.table)
  {
    ReadyDispatches(w.table);
  }

  lemma FirstWait()
    ensures Waited(Reading(), READER, 10, ReadyInTime()).1 == Woken
    ensures AfterFirst(Waited(Reading(), READER, 10, ReadyInTime()).0)
  {
    var c, cb, t := READER, TimeoutOf(READER), ReadyInTime();
    E.InitialInv();
    var w1 := Timed(Reading(), c, 10, 0);
    assert w1.timers == [Entry(10, 0, 10, false, cb)];
    ReaderRegisters(w1);
    var w2 := w1.(table := Registration(w1, c, true).table);
    HandsOut(w2, c, cb, 20);
    var w3 := Act(w2, t.parked[0], c);
    DescriptorReady(w3);
    var w4 := Act(w3, t.parked[1], c);
    assert w4.queue == [CallCont(cb), FiberCont(1)];
    TwoActs(w2, t.parked[0], t.parked[1], c);
    WaitGoes(Reading(), c, 10, t, w4);
    assert Resumed(w4, c).queue == [CallCont(cb)] by {
      assert w4.queue[1..] == [FiberCont(1)];
      assert IndexOf(w4.queue, FiberCont(1)) == 1;
    }
  }

  /** The callback of the first wait runs before the second registration. */
  lemma StaleCallback(w: World)
    requires w.queue == [CallCont(TimeoutOf(READER))] && w.info == map[READER.id := 0] && w.cancelling == []
    requires Vacant(w.table)
    ensures ActAll(w, StaleFirst().armed, READER) ==
            w.(queue := [], info := map[READER.id := ETIMEDOUT], log := w.log + [READER.id])
  {
    assert RemoveAt(w.queue, 0) == [];
    var w1 := Act(w, Run(0), READER);
    assert w1.cancelling == [Cancel(3, READ)] && w1.info == map[READER.id := ETIMEDOUT];
    TwoActs(w, Run(0), Finish(0, true), READER);
  }

  /** That of the second wait finds the errno set. */
  lemma LateCallback(w: World)
    requires w.timers == [Entry(40, 1, 10, false, TimeoutOf(READER))] && w.queue == [] && w.previous == 20
    requires w.info == map[READER.id := ETIMEDOUT] && w.cancelling == []
    ensures
      var e := ActAll(w, StaleFirst().parked, READER);
      e.timers == [] && e.queue == [] && e.cancelling == [] && e.info == w.info && e.table == w.table
  {
    HandsOut(w, READER, TimeoutOf(READER), 50);
    var w1 := Act(w, Expire(50), READER);
    assert RemoveAt(w1.queue, 0) == [];
    TwoActs(w, Expire(50), Run(0), READER);
  }

  lemma SecondWait(w0: World)
    requires AfterFirst(w0)
    ensures
      var second := Waited(w0, READER, 10, StaleFirst());
      && second.1 == Parked && second.0.timers == [] && second.0.queue == [] && second.0.cancelling == []
      && second.0.info == map[READER.id := ETIMEDOUT]
      && |second.0.table.fds| == 32 && second.0.table.fds[3].read == E.Filled(FiberCont(READER.self))
  {
    var c, t := READER, StaleFirst();
    var w1 := Timed(w0, c, 10, 30);
    assert w1.timers == [Entry(40, 1, 10, false, TimeoutOf(c))];
    StaleCallback(w1);
    var w2 := ActAll(w1, t.armed, c);
    ReaderRegisters(w2);
    LateCallback(w2.(table := Registration(w2, c, true).table));
  }

  /** The same call in the second wait: parked, its errno set, and no timer or callback left that would end the wait. */
  lemma TimeoutIsLost()
    ensures
      var first := Waited(Reading(), READER, 10, ReadyInTime());
      var second := Waited(first.0, READER, 10, StaleFirst());
      && first.1 == Woken && first.0.info == map[READER.id := 0]
      && second.1 == Parked && second.0.timers == [] && second.0.queue == [] && second.0.cancelling == []
      && second.0.info == map[READER.id := ETIMEDOUT]
      && |second.0.table.fds| == 32 && second.0.table.fds[3].read == E.Filled(FiberCont(READER.self))
  {
    FirstWait();
    SecondWait(Waited(Reading(), READER, 10, ReadyInTime()).0);
  }

  /**
    * Or the callback of the first wait runs while the second one is parked: at 30 it ends a wait whose timer is due
    * at 40.
    */
  lemma TimedOutTooEarly()
    ensures
      var first := Waited(Reading(), READER, 10, ReadyInTime()).0;
      var t := StaleWhileParked(30, 0, 0);
      var second := Waited(first, READER, 10, t);
      && second.1 == Woken && READER.id in second.0.info && second.0.info[READER.id] == ETIMEDOUT
      && AlarmOf(first, 10, t.now) == Some(Alarm(40, 1)) && !WaitReaches(first, READER, 10, t)
  {
    FirstWait();
    StaleEndsWait(Waited(Reading(), READER, 10, ReadyInTime()).0, READER, 10, 30, 0);
  }

  // ----- A cancellation that outlives its call -----

  /** The callback has passed its check when the descriptor is readable: the call ends before the cancellation. */
  function ReadyDuringCallback(): Turn {
    Turn([], [Result(-1, EAGAIN)], 0, [], true, 0,
         [Expire(20), Run(0), Operate(E.OpDispatch(3, {E.EPOLLIN}, true))], [], [])
  }

  /** Another fiber reads from the same descriptor, without a timeout. */
  const NEXT := Call(8, 2, 3, READ)

  /** What the first call leaves behind: a cancellation. */
  ghost predicate AfterCallback(w: World) {
    && w.timers == [] && w.queue == [] && w.info == map[READER.id := ETIMEDOUT]
    && w.cancelling == [Cancel(3, READ)] && Vacant(w.table)
  }

  /** The record of the first call is gone, that of the second one is there. */
  function Handover(w: World): World { w.(info := (w.info - {READER.id})[NEXT.id := 0]) }

  /** What others do in that wait, once the reader is registered. */
  lemma ParkedDuringCallback(w: World)
    requires w.timers == [Entry(10, 0, 10, false, TimeoutOf(READER))] && w.queue == [] && w.previous == 0
    requires w.info == map[READER.id := 0] && w.cancelling == [] && Occupied(w.table)
    ensures
      var e := ActAll(w, ReadyDuringCallback().parked, READER);
      && e.timers == [] && e.queue == [FiberCont(1)] && e.info == map[READER.id := ETIMEDOUT]
      && e.cancelling == [Cancel(3, READ)] && Vacant(e.table)
  {
    var c, cb, os := READER, TimeoutOf(READER), ReadyDuringCallback().parked;
    HandsOut(w, c, cb, 20);
    var w1 := Act(w, os[0], c);
    assert RemoveAt(w1.queue, 0) == [];
    var w2 := Act(w1, os[1], c);
    assert w2.queue == [] && w2.info == map[c.id := ETIMEDOUT] && w2.cancelling == [Cancel(3, READ)];
    assert w2.table == w.table && w2.timers == [];
    DescriptorReady(w2);
    assert os[1..] == [os[1], os[2]];
    TwoActs(w1, os[1], os[2], c);
  }

  lemma EndsDuringCallback()
    ensures
      var r := Waited(Reading(), READER, 10, ReadyDuringCallback());
      r.1 == Woken && AfterCallback(r.0)
  {
    var c, t := READER, ReadyDuringCallback();
    E.InitialInv();
    var w1 := Timed(Reading(), c, 10, 0);
    assert w1.timers == [Entry(10, 0, 10, false, TimeoutOf(c))];
    ReaderRegisters(w1);
    var w2 := w1.(table := Registration(w1, c, true).table);
    ParkedDuringCallback(w2);
    var w3 := ActAll(w2, t.parked, c);
    WaitGoes(Reading(), c, 10, t, w3);
    assert Resumed(w3, c).queue == [];
  }

  /** The cancellation is called for by the call that is over. */
  function CancelledWait(): Turn {
    Turn([], [Result(-1, EAGAIN)], 30, [], true, 0, [Finish(0, true)], [], [])
  }

  lemma NextIsWoken(w0: World)
    requires AfterCallback(w0)
    ensures
      var r := Waited(Handover(w0), NEXT, NONE64, CancelledWait());
      r.1 == Woken && r.0.info == map[NEXT.id := 0]
  {
    var w := Handover(w0);
    RegistersSelf(w, NEXT);
    var w1 := w.(table := Registration(w, NEXT, true).table);
    CancelTakesIff(w1, 0, FiberCont(2), true);
    var w2 := Act(w1, Finish(0, true), NEXT);
    assert w2.queue == [FiberCont(2)];
    OneAct(w1, Finish(0, true), NEXT);
    WaitGoes(w, NEXT, NONE64, CancelledWait(), w2);
  }

  /** The cancellation of the first call wakes the second one, with no errno, no timer, and nothing to read. */
  lemma LateCancelWakesAnother()
    ensures
      var first := Waited(Reading(), READER, 10, ReadyDuringCallback());
      var second := Waited(Handover(first.0), NEXT, NONE64, CancelledWait());
      first.1 == Woken && second.1 == Woken && second.0.info == map[NEXT.id := 0]
  {
    EndsDuringCallback();
    NextIsWoken(Waited(Reading(), READER, 10, ReadyDuringCallback()).0);
  }
}

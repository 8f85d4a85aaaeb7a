/** `IOManager` and `FdContext` as objects updated in place, proved against the event table on values. */
module IOManagement {
  import opened Tasks
  import opened Scheduling
  import opened EventTable
  import opened TimerManagement
  import Bags
  import Timers
  import EventRuns

  class FdContext {
    const fd: nat
    var events: Mask
    var read: EventContext
    var write: EventContext

    constructor (fd: nat)
      ensures View() == FRESH && this.fd == fd
    {
      this.fd := fd;
      events, read, write := NONE, EMPTY, EMPTY;
    }

    function View(): FdView
      reads this
    {
      FdView(events, read, write)
    }

    method SetContext(e: Event, ctx: EventContext)
      modifies this
      ensures View() == SetSlot(old(View()), e, ctx)
    {
      match e
      case READ => read := ctx;
      case WRITE => write := ctx;
    }

    /** The end of `addEvent`: the bit, and the slot with either the callback or the calling fiber. */
    method Register(e: Event, cb: Option<Callback>, self: FiberId)
      requires Slot(View(), e) == EMPTY
      modifies this
      ensures View() == SetSlot(old(View()).(events := old(events).With(e)), e,
                                Filled(if cb.Some? then CallCont(cb.value) else FiberCont(self)))
    {
      events := events.With(e);
      var ctx := EventContext(true, None, None);
      if cb.Some? {
        ctx := ctx.(cb := cb);
      } else {
        ctx := ctx.(fiber := Some(self));
      }
      SetContext(e, ctx);
    }

    /** The end of `delEvent`. */
    method Unregister(e: Event, left: Mask)
      modifies this
      ensures View() == SetSlot(old(View()).(events := left), e, EMPTY)
    {
      events := left;
      SetContext(e, EMPTY);
    }

    /** `triggerEvent`; the requires is its assertion. */
    method TriggerEvent(e: Event, s: Scheduler)
      requires events.Has(e)
      modifies this, s`m_fibers
      ensures View() == Triggered(old(View()), e)
      ensures s.m_fibers == old(s.m_fibers) + AsTasks(Content(Slot(old(View()), e)))
    {
      events := events.Without(e);
      var ctx := Slot(View(), e);
      if ctx.cb.Some? {
        var _ := s.ScheduleNoLock(Some(CallCont(ctx.cb.value)), ANY);
        ctx := ctx.(cb := None);
      } else {
        var _ := s.ScheduleNoLock(if ctx.fiber.Some? then Some(FiberCont(ctx.fiber.value)) else None, ANY);
        ctx := ctx.(fiber := None);
      }
      SetContext(e, ctx.(scheduler := false));
    }
  }

  /** What epoll reports: the tickle pipe, or a descriptor; with whether epoll will accept the change that follows. */
  datatype Report = OnPipe | OnFd(fd: nat, flags: set<EpollFlag>, willing: bool)

  function DispatchOps(reports: seq<Report>): seq<Op> {
    if reports == [] then []
    else
      var r := reports[0];
      (if r.OnFd? then [OpDispatch(r.fd, r.flags, r.willing)] else []) + DispatchOps(reports[1..])
  }

  function FdViews(ctxs: seq<FdContext>): (fds: seq<FdView>)
    reads ctxs
    ensures |fds| == |ctxs|
  {
    seq(|ctxs|, i requires 0 <= i < |ctxs| reads ctxs => ctxs[i].View())
  }

  lemma OneChanged(ctxs: seq<FdContext>, fds: seq<FdView>, fd: nat)
    requires fd < |ctxs| && |fds| == |ctxs|
    requires forall i | 0 <= i < |ctxs| && i != fd :: ctxs[i].View() == fds[i]
    ensures FdViews(ctxs) == fds[fd := ctxs[fd].View()]
  {
  }

  /** The count is zero exactly when neither the table nor the kernel has an event. */
  lemma NonePendingIff(t: Table)
    requires Inv(t)
    ensures t.pending == 0 <==> forall fd: nat :: Software(t.fds, fd) == NONE && Interest(t.kernel, fd) == NONE
  {
    if t.pending == 0 {
      Bags.TotalZero(t.fds, BitCount);
      forall fd: nat ensures Software(t.fds, fd) == NONE && Interest(t.kernel, fd) == NONE {
        assert Interest(t.kernel, fd) == Software(t.fds, fd);
        assert fd < |t.fds| ==> BitCount(t.fds[fd]) == 0;
      }
    } else if forall fd: nat :: Software(t.fds, fd) == NONE {
      forall i | 0 <= i < |t.fds| ensures BitCount(t.fds[i]) == 0 {
        assert Software(t.fds, i) == NONE;
      }
      Bags.TotalNone(t.fds, BitCount);
    }
  }

  class IOManager {
    var m_FdContexts: seq<FdContext>
    var m_pendingEventCount: int
    var m_epoll: Kernel             // the kernel's side of the registrations
    const scheduler: Scheduler

    ghost function View(): Table
      reads this, m_FdContexts
    {
      Table(FdViews(m_FdContexts), m_pendingEventCount, m_epoll)
    }

    ghost predicate Distinct()
      reads this
    {
      forall i, j | 0 <= i < j < |m_FdContexts| :: m_FdContexts[i] != m_FdContexts[j]
    }

    ghost predicate Valid()
      reads this, m_FdContexts
    {
      Distinct() && Inv(View())
    }

    constructor (s: Scheduler)
      ensures Valid() && View() == Initial() && scheduler == s && fresh(m_FdContexts)
    {
      m_FdContexts, m_pendingEventCount, m_epoll := [], 0, map[];
      scheduler := s;
      new;
      ContextResize(32);
      assert View() == Initial();
      InitialInv();
    }

    /** `stopping`: no timer, no event, no task, and no worker that has one, once a stop is asked for. */
    method Stopping(timers: TimerManager<Callback>, now: Timers.uint64) returns (done: bool, timeout: Timers.uint64)
      requires Valid() && timers.Valid()
      modifies timers`m_tickled
      ensures timers.Valid() && timers.View() == old(timers.View()) && !timers.m_tickled
      ensures timeout == Timers.NextTimeout(timers.View(), now)
      ensures now > 0 ==>
        (done <==>
         && timers.View() == []
         && (forall fd: nat :: Software(View().fds, fd) == NONE && Interest(m_epoll, fd) == NONE)
         && scheduler.m_autoStop && scheduler.m_stopping
         && scheduler.m_fibers == [] && scheduler.m_activeThreadCount == 0)
    {
      timeout := timers.GetNextTimer(now);
      done := false;
      if timeout == Timers.NONE64 && m_pendingEventCount == 0 {
        done := scheduler.Stopping();
      }
      Timers.NoneMeansEmpty(timers.View(), now);
      NonePendingIff(View());
    }

    /** `contextResize` for a growing table. */
    method ContextResize(size: nat)
      requires Distinct() && size >= |m_FdContexts|
      modifies this`m_FdContexts
      ensures Distinct() && |m_FdContexts| == size
      ensures m_FdContexts[..|old(m_FdContexts)|] == old(m_FdContexts)
      ensures forall i | |old(m_FdContexts)| <= i < size :: fresh(m_FdContexts[i]) && m_FdContexts[i].View() == FRESH
    {
      ghost var before := m_FdContexts;
      while |m_FdContexts| < size
        invariant |before| <= |m_FdContexts| <= size && Distinct() && m_FdContexts[..|before|] == before
        invariant forall i | |before| <= i < |m_FdContexts| :: fresh(m_FdContexts[i]) && m_FdContexts[i].View() == FRESH
        invariant forall i | 0 <= i < |m_FdContexts| :: allocated(m_FdContexts[i])
      {
        var ctx := new FdContext(|m_FdContexts|);
        m_FdContexts := m_FdContexts + [ctx];
      }
    }

    method EpollControl(op: CtlOp, fd: nat, mask: Mask, willing: bool) returns (rt: int)
      modifies this`m_epoll
      ensures
        var k := EpollCtl(old(m_epoll), op, fd, mask, willing);
        if k.Some? then rt == 0 && m_epoll == k.value else rt == -1 && m_epoll == old(m_epoll)
    {
      var k := EpollCtl(m_epoll, op, fd, mask, willing);
      if k.None? {
        return -1;
      }
      m_epoll := k.value;
      return 0;
    }

    /** The table lookup of `addEvent`, growing the table where it is too short. */
    method Lookup(fd: nat) returns (ctx: FdContext)
      requires Valid()
      modifies this`m_FdContexts
      ensures Distinct() && View() == old(View()).(fds := Grown(old(View()).fds, fd))
      ensures fd < |m_FdContexts| && m_FdContexts[fd] == ctx
      ensures if fd < |old(m_FdContexts)| then ctx == old(m_FdContexts)[fd] else fresh(ctx)
    {
      if |m_FdContexts| <= fd {
        ghost var t := View();
        ContextResize(fd * 3 / 2);
        assert forall i | 0 <= i < |t.fds| :: m_FdContexts[i] == m_FdContexts[..|t.fds|][i];
        assert View().fds == Grown(t.fds, fd);
      }
      ctx := m_FdContexts[fd];
    }

    /** `addEvent` by fiber `self`; its assertion demands that the event is not registered yet. */
    method AddEvent(fd: nat, event: Event, cb: Option<Callback>, self: FiberId, willing: bool) returns (rt: int)
      requires Valid() && !Software(View().fds, fd).Has(event)
      modifies this, m_FdContexts
      ensures
        var k := if cb.Some? then CallCont(cb.value) else FiberCont(self);
        var f := EventTable.AddEvent(old(View()), fd, event, k, willing);
        View() == f.table && rt == (if f.ok then 0 else -1)
      ensures Valid() && scheduler.m_fibers == old(scheduler.m_fibers)
    {
      ghost var t, k := View(), if cb.Some? then CallCont(cb.value) else FiberCont(self);
      ghost var f := EventTable.AddEvent(t, fd, event, k, willing);
      assert Inv(f.table) by {
        AddKeeps(t, fd, event, k, willing);
      }
      var fd_ctx := Lookup(fd);
      assert View().fds[fd] == fd_ctx.View() && Consistent(View().fds[fd]);
      rt := AddTo(fd_ctx, event, cb, self, willing, fd);
      assert View() == f.table;
    }

    /** `addEvent` once the context of the descriptor is known. */
    method AddTo(fd_ctx: FdContext, event: Event, cb: Option<Callback>, self: FiberId, willing: bool, fd: nat)
      returns (rt: int)
      requires Distinct() && fd < |m_FdContexts| && m_FdContexts[fd] == fd_ctx
      requires Slot(fd_ctx.View(), event) == EMPTY
      modifies this`m_pendingEventCount, this`m_epoll, fd_ctx
      ensures
        var t, v := old(View()), old(fd_ctx.View());
        var k := EpollCtl(t.kernel, if v.events != NONE then MOD else ADD, fd, v.events.With(event), willing);
        var v' := SetSlot(v.(events := v.events.With(event)), event,
                          Filled(if cb.Some? then CallCont(cb.value) else FiberCont(self)));
        if k.None? then rt == -1 && View() == t
        else rt == 0 && View() == Table(t.fds[fd := v'], t.pending + 1, k.value)
    {
      ghost var fds := View().fds;
      var op := if fd_ctx.events != NONE then MOD else ADD;
      rt := EpollControl(op, fd, fd_ctx.events.With(event), willing);
      if rt != 0 {
        return;
      }
      m_pendingEventCount := m_pendingEventCount + 1;
      fd_ctx.Register(event, cb, self);
      OneChanged(m_FdContexts, fds, fd);
    }

    method DelEvent(fd: nat, event: Event, willing: bool) returns (done: bool)
      requires Valid()
      modifies this`m_pendingEventCount, this`m_epoll, m_FdContexts
      ensures
        var f := EventTable.DelEvent(old(View()), fd, event, willing);
        View() == f.table && done == f.ok
      ensures Valid()
    {
      DelKeeps(View(), fd, event, willing);
      if |m_FdContexts| <= fd {
        return false;
      }
      var fd_ctx := m_FdContexts[fd];
      ghost var fds := FdViews(m_FdContexts);
      assert fds[fd] == fd_ctx.View();
      if !fd_ctx.events.Has(event) {
        return false;
      }
      var new_events := fd_ctx.events.Without(event);
      var op := if fd_ctx.events != NONE then MOD else DEL;
      var rt := EpollControl(op, fd, new_events, willing);
      if rt != 0 {
        return false;
      }
      m_pendingEventCount := m_pendingEventCount - 1;
      fd_ctx.Unregister(event, new_events);
      OneChanged(m_FdContexts, fds, fd);
      return true;
    }

    method CancelEvent(fd: nat, event: Event, willing: bool) returns (done: bool)
      requires Valid()
      modifies this`m_pendingEventCount, this`m_epoll, m_FdContexts, scheduler`m_fibers
      ensures
        var f := EventTable.CancelEvent(old(View()), fd, event, willing);
        View() == f.table && done == f.ok && scheduler.m_fibers == old(scheduler.m_fibers) + AsTasks(f.handed)
      ensures Valid()
    {
      CancelKeeps(View(), fd, event, willing);
      if |m_FdContexts| <= fd {
        return false;
      }
      var fd_ctx := m_FdContexts[fd];
      ghost var fds := FdViews(m_FdContexts);
      assert fds[fd] == fd_ctx.View();
      if !fd_ctx.events.Has(event) {
        return false;
      }
      var op := if fd_ctx.events != NONE then MOD else DEL;
      var rt := EpollControl(op, fd, fd_ctx.events.Without(event), willing);
      if rt != 0 {
        return false;
      }
      fd_ctx.TriggerEvent(event, scheduler);
      m_pendingEventCount := m_pendingEventCount - 1;
      OneChanged(m_FdContexts, fds, fd);
      return true;
    }

    /** `cancelAll`, whose last assertion holds: no event is left. */
    method CancelAll(fd: nat, willing: bool) returns (done: bool)
      requires Valid()
      modifies this`m_pendingEventCount, this`m_epoll, m_FdContexts, scheduler`m_fibers
      ensures
        var f := EventTable.CancelAll(old(View()), fd, willing);
        View() == f.table && done == f.ok && scheduler.m_fibers == old(scheduler.m_fibers) + AsTasks(f.handed)
      ensures Valid() && (done ==> View().fds[fd].events == NONE)
    {
      ghost var t := View();
      done := CancelLocked(fd, willing);
      assert Inv(View()) && (done ==> View().fds[fd].events == NONE) by {
        CancelAllKeeps(t, fd, willing);
      }
    }

    method CancelLocked(fd: nat, willing: bool) returns (done: bool)
      requires Distinct()
      modifies this`m_pendingEventCount, this`m_epoll, m_FdContexts, scheduler`m_fibers
      ensures
        var f := EventTable.CancelAll(old(View()), fd, willing);
        View() == f.table && done == f.ok && scheduler.m_fibers == old(scheduler.m_fibers) + AsTasks(f.handed)
    {
      if |m_FdContexts| <= fd {
        return false;
      }
      var fd_ctx := m_FdContexts[fd];
      if fd_ctx.events == NONE {
        return false;
      }
      var rt := EpollControl(DEL, fd, NONE, willing);
      if rt != 0 {
        return false;
      }
      TriggerEvents(fd_ctx, fd_ctx.events, fd);
      return true;
    }

    /** READ, then WRITE, triggered and counted off; the requires are the assertions of `triggerEvent`. */
    method TriggerEvents(fd_ctx: FdContext, which: Mask, ghost fd: nat)
      requires Distinct() && fd < |m_FdContexts| && m_FdContexts[fd] == fd_ctx && which.Within(fd_ctx.events)
      modifies this`m_pendingEventCount, fd_ctx, scheduler`m_fibers
      ensures
        var f := Remove(old(View()), fd, which, m_epoll);
        View() == f.table && scheduler.m_fibers == old(scheduler.m_fibers) + AsTasks(f.handed)
    {
      ghost var fds := View().fds;
      if which.read {
        fd_ctx.TriggerEvent(READ, scheduler);
        m_pendingEventCount := m_pendingEventCount - 1;
      }
      if which.write {
        fd_ctx.TriggerEvent(WRITE, scheduler);
        m_pendingEventCount := m_pendingEventCount - 1;
      }
      OneChanged(m_FdContexts, fds, fd);
    }

    /** One reported event of the loop in `idle`; `aborted` when the assertion of `triggerEvent` fails. */
    method DispatchOne(fd: nat, flags: set<EpollFlag>, willing: bool) returns (aborted: bool)
      requires Valid() && fd < |m_FdContexts|
      modifies this`m_pendingEventCount, this`m_epoll, m_FdContexts, scheduler`m_fibers
      ensures aborted == old(Aborts(View(), OpDispatch(fd, flags, willing)))
      ensures !aborted ==>
        var f := Dispatch(old(View()), fd, flags, willing);
        Valid() && View() == f.table && scheduler.m_fibers == old(scheduler.m_fibers) + AsTasks(f.handed)
    {
      ghost var t := View();
      aborted := DispatchLocked(fd, flags, willing);
      assert !aborted ==> Inv(View()) by {
        if !aborted {
          DispatchKeeps(t, fd, flags, willing);
        }
      }
    }

    /** The part of the loop body under the lock of the descriptor. */
    method DispatchLocked(fd: nat, flags: set<EpollFlag>, willing: bool) returns (aborted: bool)
      requires Distinct() && fd < |m_FdContexts|
      modifies this`m_pendingEventCount, this`m_epoll, m_FdContexts[fd], scheduler`m_fibers
      ensures aborted == old(Aborts(View(), OpDispatch(fd, flags, willing)))
      ensures !aborted ==>
        var f := Dispatch(old(View()), fd, flags, willing);
        View() == f.table && scheduler.m_fibers == old(scheduler.m_fibers) + AsTasks(f.handed)
    {
      var fd_ctx := m_FdContexts[fd];
      var ready := Ready(flags);
      if fd_ctx.events.And(ready) == NONE {
        return false;
      }
      var left := fd_ctx.events.Minus(ready);
      var rt := EpollControl(if left != NONE then MOD else DEL, fd, left, willing);
      if rt != 0 {
        return false;
      }
      if !ready.Within(fd_ctx.events) {
        return true;
      }
      TriggerEvents(fd_ctx, ready, fd);
      return false;
    }

    /** The table is where the operations `done` have brought it from `t`. */
    ghost predicate HasRun(t: Table, done: seq<Op>)
      reads this, m_FdContexts
    {
      Valid() && |t.fds| >= 32 && EventRuns.Run(t, done).Alive? && EventRuns.Run(t, done).table == View()
    }

    /** One report more. */
    method DispatchReport(r: Report, ghost t: Table, ghost done: seq<Op>) returns (aborted: bool)
      requires HasRun(t, done) && (r.OnFd? ==> r.fd < |m_FdContexts|)
      modifies this`m_pendingEventCount, this`m_epoll, m_FdContexts, scheduler`m_fibers
      ensures
        var ops := done + DispatchOps([r]);
        if aborted then |t.fds| >= 32 && EventRuns.Run(t, ops).Aborted? else HasRun(t, ops)
    {
      ReportExtends(t, done, r);
      if r == OnPipe {
        return false;
      }
      aborted := DispatchOne(r.fd, r.flags, r.willing);
    }

    /** The loop of `idle` over the reported events. */
    method DispatchAll(reports: seq<Report>) returns (aborted: bool)
      requires Valid() && forall r <- reports :: r.OnFd? ==> r.fd < |m_FdContexts|
      modifies this`m_pendingEventCount, this`m_epoll, m_FdContexts, scheduler`m_fibers
      ensures aborted == EventRuns.Run(old(View()), DispatchOps(reports)).Aborted?
      ensures !aborted ==> Valid() && View() == EventRuns.Run(old(View()), DispatchOps(reports)).table
    {
      ghost var t, done := View(), [];
      assert reports[0..] == reports;
      for i := 0 to |reports|
        invariant HasRun(t, done) && done + DispatchOps(reports[i..]) == DispatchOps(reports)
      {
        OpsCons(done, reports, i);
        aborted := DispatchReport(reports[i], t, done);
        done := done + DispatchOps([reports[i]]);
        if aborted {
          EventRuns.RunAborted(t, done, DispatchOps(reports[i + 1..]));
          return;
        }
      }
      assert done + [] == done;
      aborted := false;
    }
  }

  /** What one report adds to a run. */
  lemma ReportExtends(t: Table, done: seq<Op>, r: Report)
    requires |t.fds| >= 32 && EventRuns.Run(t, done).Alive?
    ensures
      var o, o' := EventRuns.Run(t, done), EventRuns.Run(t, done + DispatchOps([r]));
      if r.OnPipe? then o' == o
      else if Aborts(o.table, OpDispatch(r.fd, r.flags, r.willing)) then o'.Aborted?
      else o'.Alive? && o'.table == Dispatch(o.table, r.fd, r.flags, r.willing).table
  {
    assert [r][1..] == [];
    if r.OnPipe? {
      assert done + DispatchOps([r]) == done;
    } else {
      var op := OpDispatch(r.fd, r.flags, r.willing);
      assert DispatchOps([r]) == [op];
      EventRuns.RunExtend(t, done, op);
    }
  }

  lemma OpsCons(done: seq<Op>, reports: seq<Report>, i: nat)
    requires i < |reports|
    ensures done + DispatchOps(reports[i..]) == (done + DispatchOps([reports[i]])) + DispatchOps(reports[i + 1..])
  {
    assert reports[i..][1..] == reports[i + 1..];
    assert [reports[i]][1..] == [];
    assert DispatchOps(reports[i..]) == DispatchOps([reports[i]]) + DispatchOps(reports[i + 1..]);
  }
}

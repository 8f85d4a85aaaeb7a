/** Whole runs of the event table. */
module EventRuns {
  import opened Bags
  import opened Tasks
  import opened EventTable

  /** The table after a run, and everything the run stored in slots, handed to the scheduler, or dropped. */
  datatype Outcome =
    | Alive(table: Table, stored: multiset<Cont>, handed: multiset<Cont>, dropped: multiset<Cont>)
    | Aborted

  function Run(t: Table, ops: seq<Op>): (o: Outcome)
    requires |t.fds| >= 32
    ensures o.Alive? ==> |o.table.fds| >= 32
  {
    if ops == [] then Alive(t, multiset{}, multiset{}, multiset{})
    else
      var before, op := Run(t, ops[..|ops| - 1]), ops[|ops| - 1];
      if before.Aborted? || Aborts(before.table, op) then Aborted
      else
        var f := Apply(before.table, op);
        Alive(f.table, before.stored + f.stored, before.handed + multiset(f.handed), before.dropped + f.dropped)
  }

  /** A run goes on from where it is, unless it has ended. */
  lemma RunExtend(t: Table, ops: seq<Op>, op: Op)
    requires |t.fds| >= 32 && Run(t, ops).Alive?
    ensures
      var o := Run(t, ops);
      if Aborts(o.table, op) then Run(t, ops + [op]).Aborted?
      else Run(t, ops + [op]).Alive? && Run(t, ops + [op]).table == Apply(o.table, op).table
  {
    assert (ops + [op])[..|ops|] == ops;
  }

  lemma {:induction false} RunAborted(t: Table, ops: seq<Op>, more: seq<Op>)
    requires |t.fds| >= 32 && Run(t, ops).Aborted?
    ensures Run(t, ops + more).Aborted?
  {
    if more == [] {
      assert ops + more == ops;
    } else {
      var front := more[..|more| - 1];
      RunAborted(t, ops, front);
      assert (ops + more)[..|ops + more| - 1] == ops + front;
    }
  }

  /** Every run keeps the table consistent and accounts for every continuation. */
  lemma {:induction false} RunKeeps(t: Table, ops: seq<Op>)
    requires Inv(t) && Run(t, ops).Alive?
    ensures
      var o := Run(t, ops);
      Inv(o.table) && Slots(o.table) + (o.handed + o.dropped) == Slots(t) + o.stored
  {
    if ops != [] {
      var before, op := Run(t, ops[..|ops| - 1]), ops[|ops| - 1];
      RunKeeps(t, ops[..|ops| - 1]);
      ApplyKeeps(before.table, op);
      var f := Apply(before.table, op);
      Account(Slots(t), Slots(before.table), Slots(f.table), before.stored, f.stored,
              before.handed, multiset(f.handed), before.dropped, f.dropped);
    }
  }

  lemma Account<A>(s0: multiset<A>, s1: multiset<A>, s2: multiset<A>, p1: multiset<A>, p2: multiset<A>,
                   h1: multiset<A>, h2: multiset<A>, d1: multiset<A>, d2: multiset<A>)
    requires s1 + (h1 + d1) == s0 + p1 && s2 + (h2 + d2) == s1 + p2
    ensures s2 + ((h1 + h2) + (d1 + d2)) == s0 + (p1 + p2)
  {
    forall k ensures (s2 + ((h1 + h2) + (d1 + d2)))[k] == (s0 + (p1 + p2))[k] {
      assert (s1 + (h1 + d1))[k] == (s0 + p1)[k] && (s2 + (h2 + d2))[k] == (s1 + p2)[k];
    }
    assert s2 + ((h1 + h2) + (d1 + d2)) == s0 + (p1 + p2);
  }

  /** From an empty table, a continuation stored once is still in its slot, or was handed over once, or dropped. */
  lemma OneFate(ops: seq<Op>, k: Cont)
    requires Run(Initial(), ops).Alive?
    ensures
      var o := Run(Initial(), ops);
      Slots(o.table)[k] + o.handed[k] + o.dropped[k] == o.stored[k]
  {
    InitialInv();
    RunKeeps(Initial(), ops);
    var o := Run(Initial(), ops);
    assert (Slots(o.table) + (o.handed + o.dropped))[k] == (multiset{} + o.stored)[k];
  }

  /** Dispatch ends the process exactly when epoll agrees and reports an unregistered event beside a registered one. */
  lemma DispatchAbortsIff(t: Table, fd: nat, flags: set<EpollFlag>, willing: bool)
    requires Inv(t)
    ensures Aborts(t, OpDispatch(fd, flags, willing)) <==>
            (var events := Software(t.fds, fd);
             willing && events.And(Ready(flags)) != NONE && !Ready(flags).Within(events))
  {
    assert Interest(t.kernel, fd) == Software(t.fds, fd);
  }

  /** A descriptor registered for READ alone, for which epoll reports an error. */
  lemma ErrorOnReaderAborts(k: Cont)
    ensures
      var add := OpAdd(3, READ, k, true);
      Run(Initial(), [add]).Alive? && Run(Initial(), [add, OpDispatch(3, {EPOLLERR}, true)]).Aborted?
  {
    var add, report := OpAdd(3, READ, k, true), OpDispatch(3, {EPOLLERR}, true);
    assert [add][..0] == [] && [add, report][..1] == [add];
    var t := Apply(Initial(), add).table;
    assert Run(Initial(), []).Alive? && !Aborts(Initial(), add);
    assert Run(Initial(), [add]).Alive? && Run(Initial(), [add]).table == t;
    assert t.fds[3].events == Mask(true, false) && 3 in t.kernel;
    assert Ready({EPOLLERR}) == Mask(true, true);
  }

  /** A removal succeeds exactly when epoll is willing and there is something to remove. */
  lemma RemovalsSucceedIff(t: Table, fd: nat, e: Event, flags: set<EpollFlag>, willing: bool)
    requires Inv(t)
    ensures
      var events := Software(t.fds, fd);
      && (DelEvent(t, fd, e, willing).ok <==> willing && events.Has(e))
      && (CancelEvent(t, fd, e, willing).ok <==> willing && events.Has(e))
      && (CancelAll(t, fd, willing).ok <==> willing && events != NONE)
      && (Dispatch(t, fd, flags, willing).ok <==> willing && events.And(Ready(flags)) != NONE)
  {
    assert Interest(t.kernel, fd) == Software(t.fds, fd);
    assert Software(t.fds, fd) != NONE ==> fd < |t.fds| && fd in t.kernel;
  }

  // ----- Descriptors that can never be registered again -----

  /** Registered with epoll for nothing, and with no event set. */
  ghost predicate Stuck(t: Table, fd: nat) {
    fd in t.kernel && Software(t.fds, fd) == NONE
  }

  /** A registration succeeds exactly when epoll is willing and the descriptor is not stuck. */
  lemma AddSucceedsIff(t: Table, fd: nat, e: Event, k: Cont, willing: bool)
    requires Inv(t) && !Aborts(t, OpAdd(fd, e, k, willing))
    ensures AddEvent(t, fd, e, k, willing).ok <==> willing && !Stuck(t, fd)
  {
    assert Interest(t.kernel, fd) == Software(t.fds, fd);
    assert Grown(t.fds, fd)[fd].events == Software(t.fds, fd);
  }

  /** The last event of a descriptor, removed by delEvent or cancelEvent, leaves it stuck; otherwise, it does not. */
  lemma LastRemoval(t: Table, op: Op)
    requires Inv(t) && !Aborts(t, op) && !op.OpAdd? && Apply(t, op).ok
             && Software(Apply(t, op).table.fds, op.fd) == NONE
    ensures Stuck(Apply(t, op).table, op.fd) <==> op.OpDel? || op.OpCancel?
  {
    match op
    case OpDel(fd, e, willing) =>
      assert fd in DelEvent(t, fd, e, willing).table.kernel;
    case OpCancel(fd, e, willing) =>
      assert fd in CancelEvent(t, fd, e, willing).table.kernel;
    case OpCancelAll(fd, willing) =>
      assert fd !in CancelAll(t, fd, willing).table.kernel;
    case OpDispatch(fd, flags, willing) =>
      DispatchUnregisters(t, fd, flags, willing);
  }

  lemma DispatchUnregisters(t: Table, fd: nat, flags: set<EpollFlag>, willing: bool)
    requires Inv(t) && !Aborts(t, OpDispatch(fd, flags, willing))
    requires var f := Dispatch(t, fd, flags, willing); f.ok && Software(f.table.fds, fd) == NONE
    ensures fd !in Dispatch(t, fd, flags, willing).table.kernel
  {
    TriggerMoves(t.fds[fd], Ready(flags));
  }

  /** A stuck descriptor refuses every operation, and stays stuck. */
  lemma StuckStays(t: Table, op: Op, fd: nat)
    requires Inv(t) && Stuck(t, fd) && !Aborts(t, op)
    ensures Stuck(Apply(t, op).table, fd) && (op.fd == fd ==> !Apply(t, op).ok)
  {
    if op.fd == fd {
      StuckRefuses(t, op);
    } else {
      OthersUntouched(t, op, fd);
    }
  }

  lemma StuckRefuses(t: Table, op: Op)
    requires Inv(t) && Stuck(t, op.fd)
    ensures !Apply(t, op).ok && Stuck(Apply(t, op).table, op.fd)
  {
  }

  lemma OthersUntouched(t: Table, op: Op, fd: nat)
    requires |t.fds| >= 32 && op.fd != fd
    ensures
      var t' := Apply(t, op).table;
      Software(t'.fds, fd) == Software(t.fds, fd) && (fd in t'.kernel <==> fd in t.kernel)
  {
  }

  /** So over a run of table operations: once stuck, no event of the descriptor is registered until it is closed. */
  lemma {:induction false} StuckForever(t: Table, ops: seq<Op>, fd: nat)
    requires Inv(t) && Stuck(t, fd) && Run(t, ops).Alive?
    ensures Stuck(Run(t, ops).table, fd)
  {
    if ops != [] {
      var prefix := ops[..|ops| - 1];
      StuckForever(t, prefix, fd);
      RunKeeps(t, prefix);
      StuckStays(Run(t, prefix).table, ops[|ops| - 1], fd);
    }
  }

  // ----- Closing a descriptor -----

  /**
    * What the `close` hook asks before it cancels: is the thread hooked, does `FdManager` know the descriptor, is
    * there an IO manager.
    */
  datatype Guards = Guards(hookEnabled: bool, fdKnown: bool, managed: bool) {
    predicate Cancels() { hookEnabled && fdKnown && managed }
  }

  /** The `close` hook: the events are cancelled if the guards agree, and the kernel then forgets the descriptor. */
  function Close(t: Table, fd: nat, g: Guards, willing: bool): Effect {
    var f := if g.Cancels() then CancelAll(t, fd, willing) else Refused(t);
    f.(table := f.table.(kernel := f.table.kernel - {fd}))
  }

  /** Closing keeps the invariant exactly when the events are cancelled, with success, or there are none. */
  lemma CloseKeepsIff(t: Table, fd: nat, g: Guards, willing: bool)
    requires Inv(t)
    ensures Keeps(t, Close(t, fd, g, willing)) <==> (g.Cancels() && willing) || Software(t.fds, fd) == NONE
  {
    CancelAllKeeps(t, fd, willing);
    RemovalsSucceedIff(t, fd, READ, {}, willing);
    var c, f := if g.Cancels() then CancelAll(t, fd, willing) else Refused(t), Close(t, fd, g, willing);
    assert f.table.fds == c.table.fds && f.table.pending == c.table.pending;
    assert Slots(f.table) == Slots(c.table);
    if (g.Cancels() && willing) || Software(t.fds, fd) == NONE {
      forall x: nat ensures Interest(f.table.kernel, x) == Software(f.table.fds, x) {
        assert Interest(c.table.kernel, x) == Software(c.table.fds, x);
      }
    } else {
      assert Interest(f.table.kernel, fd) != Software(f.table.fds, fd);
    }
  }

  // ----- Descriptors closed with events registered -----

  /** The table as it would be without the events of one descriptor. */
  function Cleared(t: Table, fd: nat): Table
    requires fd < |t.fds|
  {
    t.(fds := t.fds[fd := FRESH], pending := t.pending - t.fds[fd].events.Bits())
  }

  /** Events are set for a descriptor that the kernel does not watch; everything else is as it should be. */
  ghost predicate Stranded(t: Table, fd: nat) {
    && fd < |t.fds| && t.fds[fd].events != NONE && Consistent(t.fds[fd])
    && fd !in t.kernel && Inv(Cleared(t, fd))
  }

  /** Where a close does not keep the invariant, it strands the descriptor. */
  lemma CloseStrandsIff(t: Table, fd: nat, g: Guards, willing: bool)
    requires Inv(t)
    ensures Stranded(Close(t, fd, g, willing).table, fd) <==> !Keeps(t, Close(t, fd, g, willing))
  {
    CloseKeepsIff(t, fd, g, willing);
    var t' := Close(t, fd, g, willing).table;
    if Keeps(t, Close(t, fd, g, willing)) {
      assert Interest(t'.kernel, fd) == Software(t'.fds, fd);
    } else {
      assert t' == t.(kernel := t.kernel - {fd});
      var c := Cleared(t', fd);
      TotalUpdate(t.fds, fd, FRESH, BitCount);
      assert Consistent(FRESH);
      forall x: nat ensures Interest(c.kernel, x) == Software(c.fds, x) {
        assert Interest(t.kernel, x) == Software(t.fds, x);
      }
    }
  }

  /** An operation on another descriptor does the same whether the events of `fd` are there or not, and leaves them. */
  ghost predicate Aside(t: Table, op: Op, fd: nat)
    requires |t.fds| >= 32 && fd < |t.fds|
  {
    var t', c' := Apply(t, op).table, Apply(Cleared(t, fd), op).table;
    && t'.fds[fd] == t.fds[fd] && (fd in t'.kernel <==> fd in t.kernel)
    && c'.fds == t'.fds[fd := FRESH] && c'.kernel == t'.kernel && c'.pending == t'.pending - t.fds[fd].events.Bits()
  }

  lemma UpdatesCommute<T>(s: seq<T>, i: nat, x: T, j: nat, y: T)
    requires i < |s| && j < |s| && i != j
    ensures s[i := x][j := y] == s[j := y][i := x]
  {
  }

  lemma AddAside(t: Table, op: Op, fd: nat)
    requires |t.fds| >= 32 && fd < |t.fds| && op.OpAdd? && op.fd != fd
    ensures Aside(t, op, fd)
  {
    var g := Grown(t.fds, op.fd);
    assert Grown(t.fds[fd := FRESH], op.fd) == g[fd := FRESH];
    var v := SetSlot(g[op.fd].(events := g[op.fd].events.With(op.event)), op.event, Filled(op.cont));
    UpdatesCommute(g, fd, FRESH, op.fd, v);
  }

  lemma DelAside(t: Table, op: Op, fd: nat)
    requires |t.fds| >= 32 && fd < |t.fds| && op.OpDel? && op.fd != fd
    ensures Aside(t, op, fd)
  {
    if op.fd < |t.fds| {
      var v := t.fds[op.fd];
      UpdatesCommute(t.fds, fd, FRESH, op.fd, SetSlot(v.(events := v.events.Without(op.event)), op.event, EMPTY));
    }
  }

  lemma CancelAside(t: Table, op: Op, fd: nat)
    requires |t.fds| >= 32 && fd < |t.fds| && op.OpCancel? && op.fd != fd
    ensures Aside(t, op, fd)
  {
    if op.fd < |t.fds| {
      UpdatesCommute(t.fds, fd, FRESH, op.fd, Triggered(t.fds[op.fd], op.event));
    }
  }

  lemma CancelAllAside(t: Table, op: Op, fd: nat)
    requires |t.fds| >= 32 && fd < |t.fds| && op.OpCancelAll? && op.fd != fd
    ensures Aside(t, op, fd)
  {
    if op.fd < |t.fds| {
      UpdatesCommute(t.fds, fd, FRESH, op.fd, TriggerBoth(t.fds[op.fd], t.fds[op.fd].events));
    }
  }

  lemma DispatchAside(t: Table, op: Op, fd: nat)
    requires |t.fds| >= 32 && fd < |t.fds| && op.OpDispatch? && op.fd != fd
    ensures Aside(t, op, fd)
  {
    if op.fd < |t.fds| {
      UpdatesCommute(t.fds, fd, FRESH, op.fd, TriggerBoth(t.fds[op.fd], Ready(op.flags)));
    }
  }

  /** Operations on other descriptors do not see a stranded one, and all operations on it fail. */
  lemma StrandedStays(t: Table, op: Op, fd: nat)
    requires Stranded(t, fd) && !Aborts(t, op)
    ensures
      var f := Apply(t, op);
      Stranded(f.table, fd) && f.table.fds[fd] == t.fds[fd] && (op.fd == fd ==> !f.ok)
  {
    if op.fd == fd {
      StrandedRefuses(t, op);
    } else {
      match op {
        case OpAdd(_, _, _, _) => AddAside(t, op, fd);
        case OpCancelAll(_, _) => CancelAllAside(t, op, fd);
        case OpDispatch(_, _, _) => DispatchAside(t, op, fd);
        case OpDel(_, _, _) => DelAside(t, op, fd);
        case OpCancel(_, _, _) => CancelAside(t, op, fd);
      }
      SameAbort(t, op, fd);
      ApplyKeeps(Cleared(t, fd), op);
      assert Apply(Cleared(t, fd), op).table == Cleared(Apply(t, op).table, fd);
    }
  }

  lemma SameAbort(t: Table, op: Op, fd: nat)
    requires fd < |t.fds| && op.fd != fd && !Aborts(t, op)
    ensures !Aborts(Cleared(t, fd), op)
  {
  }

  lemma StrandedRefuses(t: Table, op: Op)
    requires Stranded(t, op.fd) && !Aborts(t, op)
    ensures Apply(t, op).table == t && !Apply(t, op).ok
  {
  }

  /**
    * So over every run of table operations: its waiters are never handed over, and the count never falls to zero, so
    * no worker stops.
    */
  lemma {:induction false} StrandedForever(t: Table, ops: seq<Op>, fd: nat)
    requires Stranded(t, fd) && Run(t, ops).Alive?
    ensures
      var t' := Run(t, ops).table;
      Stranded(t', fd) && t'.fds[fd] == t.fds[fd] && t'.pending > 0
  {
    if ops == [] {
      PendingPositive(t, fd);
    } else {
      var prefix := ops[..|ops| - 1];
      StrandedForever(t, prefix, fd);
      StrandedStays(Run(t, prefix).table, ops[|ops| - 1], fd);
      PendingPositive(Run(t, ops).table, fd);
    }
  }

  lemma PendingPositive(t: Table, fd: nat)
    requires Stranded(t, fd)
    ensures t.pending > 0
  {
    assert Cleared(t, fd).pending == Total(Cleared(t, fd).fds, BitCount);
  }

  /** Closing a stranded descriptor once more does not free it. */
  lemma StrandedStaysClosed(t: Table, fd: nat, g: Guards, willing: bool)
    requires Stranded(t, fd)
    ensures Close(t, fd, g, willing).table == t
  {
    assert t.kernel - {fd} == t.kernel;
  }

  /** A descriptor unknown to `FdManager`, a pipe say, registered for READ and closed, though epoll would agree. */
  lemma UnknownCloseStrands(k: Cont)
    ensures
      var add := AddEvent(Initial(), 3, READ, k, true);
      var close := Close(add.table, 3, Guards(true, false, true), true);
      && add.ok && Inv(add.table) && !Keeps(add.table, close)
      && Stranded(close.table, 3) && Held(close.table.fds[3].read) == multiset{k}
  {
    var add, g := AddEvent(Initial(), 3, READ, k, true), Guards(true, false, true);
    InitialInv();
    AddSucceedsIff(Initial(), 3, READ, k, true);
    AddKeeps(Initial(), 3, READ, k, true);
    assert Software(add.table.fds, 3).Has(READ);
    CloseStrandsIff(add.table, 3, g, true);
    CloseKeepsIff(add.table, 3, g, true);
    assert Close(add.table, 3, g, true).table.fds == add.table.fds;
  }

  /** A stuck descriptor that is closed, with or without cancellation, and opened again is no longer stuck. */
  lemma CloseUnsticks(t: Table, fd: nat, g: Guards, willing: bool, e: Event, k: Cont)
    requires Inv(t) && Stuck(t, fd)
    ensures
      var t' := Close(t, fd, g, willing).table;
      Inv(t') && !Stuck(t', fd) && AddEvent(t', fd, e, k, true).ok
  {
    CloseKeepsIff(t, fd, g, willing);
    AddSucceedsIff(Close(t, fd, g, willing).table, fd, e, k, true);
  }
}

/** The event table of the IO manager, as values: its operations, what a run of them keeps, and where they get stuck. */
module EventTable {
  import opened Bags
  import opened Tasks

  /** The bits of an event mask. */
  datatype Mask = Mask(read: bool, write: bool) {
    predicate Has(e: Event) {
      match e case READ => read case WRITE => write
    }

    function With(e: Event): Mask {
      match e case READ => this.(read := true) case WRITE => this.(write := true)
    }

    function Without(e: Event): Mask {
      match e case READ => this.(read := false) case WRITE => this.(write := false)
    }

    function And(m: Mask): Mask { Mask(read && m.read, write && m.write) }

    function Minus(m: Mask): Mask { Mask(read && !m.read, write && !m.write) }

    predicate Within(m: Mask) { (read ==> m.read) && (write ==> m.write) }

    function Bits(): nat { (if read then 1 else 0) + if write then 1 else 0 }
  }

  const NONE := Mask(false, false)

  /** `FdContext::EventContext`. */
  datatype EventContext = EventContext(scheduler: bool, fiber: Option<FiberId>, cb: Option<Callback>)

  const EMPTY := EventContext(false, None, None)

  datatype FdView = FdView(events: Mask, read: EventContext, write: EventContext)

  const FRESH := FdView(NONE, EMPTY, EMPTY)

  datatype CtlOp = ADD | MOD | DEL

  /** The interest mask that epoll keeps for each registered descriptor. */
  type Kernel = map<nat, Mask>

  datatype Table = Table(fds: seq<FdView>, pending: int, kernel: Kernel)

  datatype EpollFlag = EPOLLIN | EPOLLOUT | EPOLLERR | EPOLLHUP

  /** What one operation did: its result, and the continuations it stored, handed to the scheduler or dropped. */
  datatype Effect = Effect(table: Table, ok: bool, stored: multiset<Cont>, handed: seq<Cont>, dropped: multiset<Cont>)

  /** `epoll_ctl`, which may fail for reasons of its own, and must fail on a wrong registration state. */
  function EpollCtl(k: Kernel, op: CtlOp, fd: nat, mask: Mask, willing: bool): Option<Kernel> {
    if !willing || (fd in k) == op.ADD? then None
    else if op.DEL? then Some(k - {fd})
    else Some(k[fd := mask])
  }

  function Slot(v: FdView, e: Event): EventContext {
    match e case READ => v.read case WRITE => v.write
  }

  function SetSlot(v: FdView, e: Event, ctx: EventContext): FdView {
    match e case READ => v.(read := ctx) case WRITE => v.(write := ctx)
  }

  /** What the scheduler gets when a slot is triggered: the callback if there is one, else the fiber. */
  function Content(ctx: EventContext): seq<Cont> {
    if ctx.cb.Some? then [CallCont(ctx.cb.value)]
    else if ctx.fiber.Some? then [FiberCont(ctx.fiber.value)]
    else []
  }

  /** What a slot holds. */
  function Held(ctx: EventContext): multiset<Cont> {
    (if ctx.fiber.Some? then multiset{FiberCont(ctx.fiber.value)} else multiset{})
    + if ctx.cb.Some? then multiset{CallCont(ctx.cb.value)} else multiset{}
  }

  function Filled(k: Cont): EventContext {
    match k
    case FiberCont(f) => EventContext(true, Some(f), None)
    case CallCont(cb) => EventContext(true, None, Some(cb))
  }

  /** `triggerEvent`: only what is handed over leaves the slot, and the scheduler is cleared. */
  function Triggered(v: FdView, e: Event): FdView {
    var ctx := Slot(v, e);
    SetSlot(v.(events := v.events.Without(e)), e,
            if ctx.cb.Some? then ctx.(cb := None, scheduler := false) else ctx.(fiber := None, scheduler := false))
  }

  function Grown(fds: seq<FdView>, fd: nat): (r: seq<FdView>)
    requires |fds| >= 32
    ensures fd < |r| && |fds| <= |r| && forall i | 0 <= i < |r| :: r[i] == if i < |fds| then fds[i] else FRESH
  {
    if fd < |fds| then fds else fds + seq(fd * 3 / 2 - |fds|, _ => FRESH)
  }

  // ----- The operations -----

  function AddEvent(t: Table, fd: nat, e: Event, k: Cont, willing: bool): Effect
    requires |t.fds| >= 32
  {
    var fds := Grown(t.fds, fd);
    var v := fds[fd];
    match EpollCtl(t.kernel, if v.events != NONE then MOD else ADD, fd, v.events.With(e), willing)
    case None => Refused(t.(fds := fds))
    case Some(kernel) =>
      var v' := SetSlot(v.(events := v.events.With(e)), e, Filled(k));
      Effect(Table(fds[fd := v'], t.pending + 1, kernel), true, multiset{k}, [], multiset{})
  }

  function Refused(t: Table): Effect {
    Effect(t, false, multiset{}, [], multiset{})
  }

  function DelEvent(t: Table, fd: nat, e: Event, willing: bool): Effect {
    if |t.fds| <= fd || !t.fds[fd].events.Has(e) then Refused(t)
    else
      var v := t.fds[fd];
      var left := v.events.Without(e);
      match EpollCtl(t.kernel, if v.events != NONE then MOD else DEL, fd, left, willing)
      case None => Refused(t)
      case Some(kernel) =>
        var v' := SetSlot(v.(events := left), e, EMPTY);
        Effect(Table(t.fds[fd := v'], t.pending - 1, kernel), true, multiset{}, [], Held(Slot(v, e)))
  }

  function CancelEvent(t: Table, fd: nat, e: Event, willing: bool): Effect {
    if |t.fds| <= fd || !t.fds[fd].events.Has(e) then Refused(t)
    else
      var v := t.fds[fd];
      match EpollCtl(t.kernel, if v.events != NONE then MOD else DEL, fd, v.events.Without(e), willing)
      case None => Refused(t)
      case Some(kernel) =>
        Effect(Table(t.fds[fd := Triggered(v, e)], t.pending - 1, kernel),
               true, multiset{}, Content(Slot(v, e)), multiset{})
  }

  /** Triggers READ, then WRITE, where they are in `which`. */
  function TriggerBoth(v: FdView, which: Mask): FdView {
    var v' := if which.read then Triggered(v, READ) else v;
    if which.write then Triggered(v', WRITE) else v'
  }

  function Contents(v: FdView, which: Mask): seq<Cont> {
    (if which.read then Content(v.read) else []) + if which.write then Content(v.write) else []
  }

  /** The removal of a set of events from one descriptor, once epoll has agreed. */
  function Remove(t: Table, fd: nat, which: Mask, kernel: Kernel): Effect
    requires fd < |t.fds|
  {
    var v := t.fds[fd];
    Effect(Table(t.fds[fd := TriggerBoth(v, which)], t.pending - which.Bits(), kernel),
           true, multiset{}, Contents(v, which), multiset{})
  }

  function CancelAll(t: Table, fd: nat, willing: bool): Effect {
    if |t.fds| <= fd || t.fds[fd].events == NONE then Refused(t)
    else match EpollCtl(t.kernel, DEL, fd, NONE, willing)
      case None => Refused(t)
      case Some(kernel) => Remove(t, fd, t.fds[fd].events, kernel)
  }

  /** The events that a report of epoll stands for: an error or a hang-up counts as both. */
  function Ready(flags: set<EpollFlag>): Mask {
    var bad := EPOLLERR in flags || EPOLLHUP in flags;
    Mask(bad || EPOLLIN in flags, bad || EPOLLOUT in flags)
  }

  /** One event of the loop in `idle`. */
  function Dispatch(t: Table, fd: nat, flags: set<EpollFlag>, willing: bool): Effect {
    if |t.fds| <= fd || t.fds[fd].events.And(Ready(flags)) == NONE then Refused(t)
    else
      var left := t.fds[fd].events.Minus(Ready(flags));
      match EpollCtl(t.kernel, if left != NONE then MOD else DEL, fd, left, willing)
      case None => Refused(t)
      case Some(kernel) => Remove(t, fd, Ready(flags), kernel)
  }

  datatype Op =
    | OpAdd(fd: nat, event: Event, cont: Cont, willing: bool)
    | OpDel(fd: nat, event: Event, willing: bool)
    | OpCancel(fd: nat, event: Event, willing: bool)
    | OpCancelAll(fd: nat, willing: bool)
    | OpDispatch(fd: nat, flags: set<EpollFlag>, willing: bool)

  function Apply(t: Table, op: Op): (f: Effect)
    requires |t.fds| >= 32
    ensures |f.table.fds| >= |t.fds|
  {
    match op
    case OpAdd(fd, e, k, willing) => AddEvent(t, fd, e, k, willing)
    case OpDel(fd, e, willing) => DelEvent(t, fd, e, willing)
    case OpCancel(fd, e, willing) => CancelEvent(t, fd, e, willing)
    case OpCancelAll(fd, willing) => CancelAll(t, fd, willing)
    case OpDispatch(fd, flags, willing) => Dispatch(t, fd, flags, willing)
  }

  /** The operation fails one of the assertions of the code, and the process ends. */
  predicate Aborts(t: Table, op: Op) {
    match op
    case OpAdd(fd, e, _, _) => Software(t.fds, fd).Has(e)
    case OpDispatch(fd, flags, willing) => Dispatch(t, fd, flags, willing).ok && !Ready(flags).Within(t.fds[fd].events)
    case _ => false
  }

  // ----- The invariant -----

  /** A bit is set exactly when its slot holds a scheduler and one of fiber and callback; else the slot is empty. */
  predicate SlotConsistent(events: Mask, e: Event, ctx: EventContext) {
    if events.Has(e) then ctx.scheduler && ctx.fiber.Some? != ctx.cb.Some? else ctx == EMPTY
  }

  predicate Consistent(v: FdView) {
    SlotConsistent(v.events, READ, v.read) && SlotConsistent(v.events, WRITE, v.write)
  }

  function BitCount(v: FdView): nat {
    v.events.Bits()
  }

  function Stored(v: FdView): multiset<Cont> {
    Held(v.read) + Held(v.write)
  }

  ghost function Slots(t: Table): multiset<Cont> {
    Gather(t.fds, Stored)
  }

  /** The mask registered with the kernel; nothing when the descriptor is not registered. */
  function Interest(k: Kernel, fd: nat): Mask {
    if fd in k then k[fd] else NONE
  }

  function Software(fds: seq<FdView>, fd: nat): Mask {
    if fd < |fds| then fds[fd].events else NONE
  }

  predicate AllConsistent(fds: seq<FdView>) {
    forall i | 0 <= i < |fds| :: Consistent(fds[i])
  }

  /** The kernel watches exactly the events that the table has set, for every descriptor. */
  ghost predicate MasksAgree(kernel: Kernel, fds: seq<FdView>) {
    forall fd: nat :: Interest(kernel, fd) == Software(fds, fd)
  }

  ghost predicate Inv(t: Table) {
    |t.fds| >= 32 && AllConsistent(t.fds) && MasksAgree(t.kernel, t.fds) && t.pending == Total(t.fds, BitCount)
  }

  function Initial(): Table {
    Table(seq(32, _ => FRESH), 0, map[])
  }

  lemma InitialInv()
    ensures Inv(Initial()) && Slots(Initial()) == multiset{}
  {
    var fds := Initial().fds;
    assert BitCount(FRESH) == 0 && Stored(FRESH) == multiset{} && Consistent(FRESH);
    TotalNone(fds, BitCount);
    GatherNone(fds, Stored);
    assert MasksAgree(map[], fds);
  }

  /** The invariant holds again, and no continuation was lost or made. */
  ghost predicate Keeps(t: Table, f: Effect) {
    && Inv(f.table)
    && Slots(f.table) + (multiset(f.handed) + f.dropped) == Slots(t) + f.stored
  }

  // ----- One operation -----

  lemma Growth(fds: seq<FdView>, fd: nat)
    requires |fds| >= 32
    ensures Total(Grown(fds, fd), BitCount) == Total(fds, BitCount)
    ensures Gather(Grown(fds, fd), Stored) == Gather(fds, Stored)
  {
    var r := Grown(fds, fd);
    var more := r[|fds|..];
    assert r == fds + more;
    TotalConcat(fds, more, BitCount);
    TotalNone(more, BitCount);
    GatherConcat(fds, more, Stored);
    GatherNone(more, Stored);
  }

  lemma Exchange<A>(a: multiset<A>, x: multiset<A>, b: multiset<A>, y: multiset<A>,
                    minus: multiset<A>, plus: multiset<A>)
    requires a + x == b + y && y + minus == x + plus
    ensures a + minus == b + plus
  {
    forall k ensures (a + minus)[k] == (b + plus)[k] {
      assert (a + x)[k] == (b + y)[k] && (y + minus)[k] == (x + plus)[k];
    }
    assert a + minus == b + plus;
  }

  lemma ConsistentAfter(fds: seq<FdView>, fd: nat, v': FdView)
    requires |fds| >= 32 && AllConsistent(fds) && Consistent(v')
    ensures AllConsistent(Grown(fds, fd)[fd := v'])
  {
    assert Consistent(FRESH);
  }

  lemma MasksAfter(fds: seq<FdView>, k: Kernel, fd: nat, v': FdView, kernel: Kernel)
    requires |fds| >= 32 && MasksAgree(k, fds)
    requires Interest(kernel, fd) == v'.events && forall x: nat | x != fd :: Interest(kernel, x) == Interest(k, x)
    ensures MasksAgree(kernel, Grown(fds, fd)[fd := v'])
  {
    forall x: nat ensures Interest(kernel, x) == Software(Grown(fds, fd)[fd := v'], x) {
      assert Interest(k, x) == Software(fds, x);
    }
  }

  lemma SlotsAfter(fds: seq<FdView>, fd: nat, v': FdView, minus: multiset<Cont>, plus: multiset<Cont>)
    requires |fds| >= 32 && Stored(v') + minus == Stored(Grown(fds, fd)[fd]) + plus
    ensures Gather(Grown(fds, fd)[fd := v'], Stored) + minus == Gather(fds, Stored) + plus
  {
    var r := Grown(fds, fd);
    Growth(fds, fd);
    GatherUpdate(r, fd, v', Stored);
    Exchange(Gather(r[fd := v'], Stored), Stored(r[fd]), Gather(r, Stored), Stored(v'), minus, plus);
  }

  /** What happens to the one descriptor that an operation changes. */
  ghost predicate Moves(v: FdView, v': FdView, minus: multiset<Cont>, plus: multiset<Cont>, delta: int) {
    Consistent(v') && Stored(v') + minus == Stored(v) + plus && v'.events.Bits() == v.events.Bits() + delta
  }

  /** The kernel registration follows the change of that descriptor. */
  ghost predicate Registers(k: Kernel, fd: nat, events: Mask, k': Kernel) {
    Interest(k', fd) == events && forall x: nat | x != fd :: Interest(k', x) == Interest(k, x)
  }

  /** An operation that changes one descriptor keeps everything if it does so there. */
  lemma FromLocal(t: Table, fd: nat, v': FdView, kernel: Kernel, delta: int, f: Effect)
    requires Inv(t) && f.table == Table(Grown(t.fds, fd)[fd := v'], t.pending + delta, kernel)
    requires Moves(Grown(t.fds, fd)[fd], v', multiset(f.handed) + f.dropped, f.stored, delta)
    requires Registers(t.kernel, fd, v'.events, kernel)
    ensures Keeps(t, f)
  {
    ConsistentAfter(t.fds, fd, v');
    MasksAfter(t.fds, t.kernel, fd, v', kernel);
    SlotsAfter(t.fds, fd, v', multiset(f.handed) + f.dropped, f.stored);
    Growth(t.fds, fd);
    TotalUpdate(Grown(t.fds, fd), fd, v', BitCount);
  }

  lemma FillMoves(v: FdView, e: Event, k: Cont)
    requires Consistent(v) && !v.events.Has(e)
    ensures Moves(v, SetSlot(v.(events := v.events.With(e)), e, Filled(k)), multiset{}, multiset{k}, 1)
  {
    assert Held(EMPTY) == multiset{} && Held(Filled(k)) == multiset{k};
    var v' := SetSlot(v.(events := v.events.With(e)), e, Filled(k));
    if e == READ {
      assert Stored(v') == multiset{k} + Held(v.write) && Stored(v) == multiset{} + Held(v.write);
    } else {
      assert Stored(v') == Held(v.read) + multiset{k} && Stored(v) == Held(v.read) + multiset{};
    }
  }

  lemma ClearMoves(v: FdView, e: Event)
    requires Consistent(v) && v.events.Has(e)
    ensures Triggered(v, e) == SetSlot(v.(events := v.events.Without(e)), e, EMPTY)
    ensures Moves(v, Triggered(v, e), Held(Slot(v, e)), multiset{}, -1)
    ensures multiset(Content(Slot(v, e))) == Held(Slot(v, e))
  {
    assert Held(EMPTY) == multiset{};
  }

  /** One event of a set is triggered, where it is in the set. */
  lemma TriggerOne(v: FdView, e: Event, on: bool)
    requires Consistent(v) && (on ==> v.events.Has(e))
    ensures
      var v' := if on then Triggered(v, e) else v;
      var content := if on then Content(Slot(v, e)) else [];
      Moves(v, v', multiset(content), multiset{}, if on then -1 else 0)
  {
    if on {
      ClearMoves(v, e);
    }
  }

  lemma TriggerMoves(v: FdView, which: Mask)
    requires Consistent(v) && which.Within(v.events)
    ensures Moves(v, TriggerBoth(v, which), multiset(Contents(v, which)), multiset{}, 0 - which.Bits())
    ensures TriggerBoth(v, which).events == v.events.Minus(which)
  {
    var v1 := if which.read then Triggered(v, READ) else v;
    var v2 := TriggerBoth(v, which);
    var r := if which.read then Content(v.read) else [];
    var w := if which.write then Content(v.write) else [];
    assert v1.write == v.write;
    TriggerOne(v, READ, which.read);
    TriggerOne(v1, WRITE, which.write);
    assert multiset(r + w) == multiset(r) + multiset(w);
    assert Stored(v2) + multiset(r + w) == Stored(v) by {
      Chain(Stored(v), Stored(v1), Stored(v2), multiset(r), multiset(w));
    }
  }

  lemma Chain<A>(a: multiset<A>, b: multiset<A>, c: multiset<A>, x: multiset<A>, y: multiset<A>)
    requires b + x == a && c + y == b
    ensures c + (x + y) == a
  {
  }

  /** `addEvent` stores its continuation in the slot, or nothing where it fails. */
  lemma AddKeeps(t: Table, fd: nat, e: Event, k: Cont, willing: bool)
    requires Inv(t) && !Aborts(t, OpAdd(fd, e, k, willing))
    ensures
      var f := AddEvent(t, fd, e, k, willing);
      && Keeps(t, f) && f.handed == [] && f.dropped == multiset{}
      && f.stored == (if f.ok then multiset{k} else multiset{})
      && (f.ok ==> Held(Slot(f.table.fds[fd], e)) == multiset{k})
      && (f.ok ==> f.table.fds[fd].events == Software(t.fds, fd).With(e))
  {
    var f := AddEvent(t, fd, e, k, willing);
    AddFills(t, fd, e, k, willing);
    assert Keeps(t, f) by {
      AddConserves(t, fd, e, k, willing);
    }
  }

  lemma AddFills(t: Table, fd: nat, e: Event, k: Cont, willing: bool)
    requires |t.fds| >= 32
    ensures
      var f := AddEvent(t, fd, e, k, willing);
      && f.handed == [] && f.dropped == multiset{} && f.stored == (if f.ok then multiset{k} else multiset{})
      && (f.ok ==> Held(Slot(f.table.fds[fd], e)) == multiset{k})
      && (f.ok ==> f.table.fds[fd].events == Software(t.fds, fd).With(e))
  {
  }

  lemma AddConserves(t: Table, fd: nat, e: Event, k: Cont, willing: bool)
    requires Inv(t) && !Aborts(t, OpAdd(fd, e, k, willing))
    ensures Keeps(t, AddEvent(t, fd, e, k, willing))
  {
    var f := AddEvent(t, fd, e, k, willing);
    var v := Grown(t.fds, fd)[fd];
    assert Interest(t.kernel, fd) == Software(t.fds, fd) == v.events;
    if f.ok {
      FillMoves(v, e, k);
      AddFrom(t, fd, f);
    } else {
      assert Grown(t.fds, fd)[fd := v] == Grown(t.fds, fd);
      FromLocal(t, fd, v, t.kernel, 0, f);
    }
  }

  lemma AddFrom(t: Table, fd: nat, f: Effect)
    requires Inv(t) && fd < |f.table.fds|
    requires var v' := f.table.fds[fd];
      && f.table == Table(Grown(t.fds, fd)[fd := v'], t.pending + 1, t.kernel[fd := v'.events])
      && Moves(Grown(t.fds, fd)[fd], v', multiset{}, f.stored, 1) && f.handed == [] && f.dropped == multiset{}
    ensures Keeps(t, f)
  {
    FromLocal(t, fd, f.table.fds[fd], f.table.kernel, 1, f);
  }

  /** One registered event is cleared, with the MOD of the remaining mask that the code issues. */
  lemma ClearFrom(t: Table, fd: nat, e: Event, f: Effect)
    requires Inv(t) && fd < |t.fds| && t.fds[fd].events.Has(e)
    requires var v := t.fds[fd];
      && f.table == Table(t.fds[fd := Triggered(v, e)], t.pending - 1, t.kernel[fd := v.events.Without(e)])
      && f.stored == multiset{} && multiset(f.handed) + f.dropped == Held(Slot(v, e))
    ensures Keeps(t, f)
  {
    ClearMoves(t.fds[fd], e);
    FromLocal(t, fd, f.table.fds[fd], f.table.kernel, -1, f);
  }

  /** The event is gone from the table, and nothing else has changed. */
  ghost predicate Cleared(t: Table, fd: nat, e: Event, t': Table) {
    && fd < |t.fds| && t'.fds == t.fds[fd := SetSlot(t.fds[fd].(events := t.fds[fd].events.Without(e)), e, EMPTY)]
    && t'.pending == t.pending - 1
  }

  /** `delEvent` drops what the slot holds; where it fails, nothing happens. */
  lemma DelKeeps(t: Table, fd: nat, e: Event, willing: bool)
    requires Inv(t)
    ensures
      var f := DelEvent(t, fd, e, willing);
      && Keeps(t, f) && f.handed == [] && f.stored == multiset{}
      && if f.ok then Cleared(t, fd, e, f.table) && f.dropped == Held(Slot(t.fds[fd], e)) else f == Refused(t)
  {
    var f := DelEvent(t, fd, e, willing);
    if f.ok {
      ClearMoves(t.fds[fd], e);
      ClearFrom(t, fd, e, f);
    }
  }

  /** `cancelEvent` hands over what the slot holds, and drops nothing. */
  lemma CancelKeeps(t: Table, fd: nat, e: Event, willing: bool)
    requires Inv(t)
    ensures
      var f := CancelEvent(t, fd, e, willing);
      && Keeps(t, f) && f.dropped == multiset{} && f.stored == multiset{}
      && if f.ok then Cleared(t, fd, e, f.table) && multiset(f.handed) == Held(Slot(t.fds[fd], e)) else f == Refused(t)
  {
    var f := CancelEvent(t, fd, e, willing);
    if f.ok {
      ClearMoves(t.fds[fd], e);
      ClearFrom(t, fd, e, f);
    }
  }

  /** What the slots of a set of events hold. */
  function HeldIn(v: FdView, which: Mask): multiset<Cont> {
    (if which.read then Held(v.read) else multiset{}) + if which.write then Held(v.write) else multiset{}
  }

  lemma ContentsHeld(v: FdView, which: Mask)
    requires Consistent(v) && which.Within(v.events)
    ensures multiset(Contents(v, which)) == HeldIn(v, which)
  {
    var r := if which.read then Content(v.read) else [];
    var w := if which.write then Content(v.write) else [];
    assert multiset(r + w) == multiset(r) + multiset(w);
    if which.read {
      ClearMoves(v, READ);
    }
    if which.write {
      ClearMoves(v, WRITE);
    }
  }

  /** Triggering registered events empties exactly their slots. */
  lemma RemoveKeeps(t: Table, fd: nat, which: Mask, kernel: Kernel)
    requires Inv(t) && fd < |t.fds| && which.Within(t.fds[fd].events)
    requires Registers(t.kernel, fd, t.fds[fd].events.Minus(which), kernel)
    ensures Keeps(t, Remove(t, fd, which, kernel))
    ensures Remove(t, fd, which, kernel).table.fds[fd].events == t.fds[fd].events.Minus(which)
    ensures multiset(Remove(t, fd, which, kernel).handed) == HeldIn(t.fds[fd], which)
  {
    TriggerMoves(t.fds[fd], which);
    ContentsHeld(t.fds[fd], which);
    FromLocal(t, fd, TriggerBoth(t.fds[fd], which), kernel, 0 - which.Bits(), Remove(t, fd, which, kernel));
  }

  /** `cancelAll` hands over both slots, and leaves no event behind, as its last assertion says. */
  lemma CancelAllKeeps(t: Table, fd: nat, willing: bool)
    requires Inv(t)
    ensures
      var f := CancelAll(t, fd, willing);
      && Keeps(t, f) && f.dropped == multiset{} && f.stored == multiset{}
      && if f.ok then f.table.fds[fd].events == NONE && multiset(f.handed) == Stored(t.fds[fd]) else f == Refused(t)
  {
    var f := CancelAll(t, fd, willing);
    if f.ok {
      var v := t.fds[fd];
      RemoveKeeps(t, fd, v.events, f.table.kernel);
      assert Consistent(v) && Held(EMPTY) == multiset{};
    }
  }

  /** Dispatch hands over the slots of the reported events, and leaves the other events. */
  lemma DispatchKeeps(t: Table, fd: nat, flags: set<EpollFlag>, willing: bool)
    requires Inv(t) && !Aborts(t, OpDispatch(fd, flags, willing))
    ensures
      var f := Dispatch(t, fd, flags, willing);
      && Keeps(t, f) && f.dropped == multiset{} && f.stored == multiset{}
      && if f.ok then
           && f.table.fds[fd].events == t.fds[fd].events.Minus(Ready(flags))
           && multiset(f.handed) == HeldIn(t.fds[fd], Ready(flags))
         else f == Refused(t)
  {
    var f := Dispatch(t, fd, flags, willing);
    if f.ok {
      RemoveKeeps(t, fd, Ready(flags), f.table.kernel);
    }
  }

  /** Every operation that does not end the process keeps the invariant and conserves the continuations. */
  lemma ApplyKeeps(t: Table, op: Op)
    requires Inv(t) && !Aborts(t, op)
    ensures Keeps(t, Apply(t, op))
  {
    var f := Apply(t, op);
    assert Keeps(t, f) by {
      match op
      case OpAdd(fd, e, k, willing) => AddKeeps(t, fd, e, k, willing);
      case OpDel(fd, e, willing) => DelKeeps(t, fd, e, willing);
      case OpCancel(fd, e, willing) => CancelKeeps(t, fd, e, willing);
      case OpCancelAll(fd, willing) => CancelAllKeeps(t, fd, willing);
      case OpDispatch(fd, flags, willing) => DispatchKeeps(t, fd, flags, willing);
    }
  }
}

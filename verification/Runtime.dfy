/**
  * The fiber runtime as one step system: workers that share the task queue, fibers and their states, the event
  * table, the timers, and the idle loop. Every lock region, every switch and every client action is one step.
  */
module Runtime {
  import opened Bags
  import opened Tasks
  import opened Timers
  import opened Scheduling
  import E = EventTable

  datatype FiberState = INIT | HOLD | EXEC | TERM | READY | EXCEPT

  datatype Fiber = Fiber(state: FiberState, hasBody: bool)

  /** Where a worker thread is. */
  datatype Pc =
    | Head                                 // at the top of the loop in `run`
    | Hand(task: Task)                     // holds a task it took
    | Running(fiber: FiberId,              // has this fiber on its stack
              own: bool,                   //   which is its callback fiber,
              armed: bool,                 //   which has left a wake-up somewhere since it was resumed,
              owes: Option<FiberId>,       //   which runs a wake-up callback that has not scheduled its fiber yet,
              parked: bool)                //   whose state is written but whose switch is not booked yet
    | Requeue(again: FiberId)              // has counted itself inactive, and is about to queue a READY fiber
    | IdleTimers | IdlePending | IdleQueue // in the idle loop: the three questions of `stopping`,
    | IdleWait                             //   the wait,
    | IdleSubmit(fired: seq<Callback>)     //   the expired callbacks before they are scheduled,
    | IdleDispatch                         //   and the reported events
    | Left                                 // has returned from `run`

  datatype Worker = Worker(thread: int, pc: Pc, idle: FiberState, cbFiber: Option<FiberId>)

  datatype State = State(
    fibers: seq<Fiber>, queue: seq<Task>, workers: seq<Worker>,
    table: E.Table, timers: seq<Entry<Callback>>, nextAddr: nat, previous: uint64,
    active: int, idle: int, autoStop: bool, stopping: bool)

  /** A client action comes from a running fiber, or from a thread outside the pool. */
  datatype Who = Outside | Inside(worker: nat)

  datatype Label =
    | Take(i: nat)
    | SwapIn(i: nat)
    | Submit(who: Who, id: nat, thread: int)
    | Spawn(who: Who, thread: int)
    | Operate(who: Who, op: E.Op)
    | Register(i: nat, fd: nat, event: Event, willing: bool)
    | Sleep(i: nat, ms: uint64, now: uint64)
    | AddTimer(who: Who, ms: uint64, now: uint64, recurring: bool, cb: Callback)
    | CancelTimer(who: Who, k: nat)
    | Deliver(i: nat)
    | Leave(i: nat, state: FiberState)
    | Back(i: nat)
    | Again(i: nat)
    | ReadTimers(i: nat, now: uint64)
    | ReadPending(i: nat)
    | ReadQueue(i: nat)
    | Fire(i: nat, now: uint64)
    | SubmitFired(i: nat)
    | Dispatch(i: nat, fd: nat, flags: set<E.EpollFlag>, willing: bool)
    | IdleOut(i: nat)
    | Stop

  // ----- Pieces of the state -----

  function StateOf(fibers: seq<Fiber>, f: FiberId): FiberState {
    if f < |fibers| then fibers[f].state else TERM
  }

  predicate Finished(fibers: seq<Fiber>, f: FiberId) {
    StateOf(fibers, f) in {TERM, EXCEPT}
  }

  function SetState(fibers: seq<Fiber>, f: FiberId, state: FiberState): seq<Fiber> {
    if f < |fibers| then fibers[f := fibers[f].(state := state)] else fibers
  }

  /** `Fiber::reset`. */
  function ResetFiber(fibers: seq<Fiber>, f: FiberId, hasBody: bool): seq<Fiber> {
    if f < |fibers| then fibers[f := Fiber(INIT, hasBody)] else fibers
  }

  function Exec(fibers: seq<Fiber>): set<FiberId> {
    set f: nat | f < |fibers| && fibers[f].state == EXEC
  }

  function Put(s: State, i: nat, w: Worker): State
    requires i < |s.workers|
  {
    s.(workers := s.workers[i := w])
  }

  function Go(s: State, i: nat, pc: Pc): State
    requires i < |s.workers|
  {
    Put(s, i, s.workers[i].(pc := pc))
  }

  function Calls(cbs: seq<Callback>): (r: seq<Task>)
  {
    seq(|cbs|, j requires 0 <= j < |cbs| => Task(CallCont(cbs[j]), ANY))
  }

  // ----- The worker loop -----

  /** The lock region at the top of the loop, and what follows where it finds nothing. */
  function TakeStep(s: State, i: nat): State
    requires i < |s.workers|
  {
    var w := s.workers[i];
    var k := Scan(s.queue, w.thread, Exec(s.fibers));
    if k < |s.queue| then
      Go(s, i, Hand(s.queue[k])).(queue := RemoveAt(s.queue, k), active := s.active + 1)
    else if w.idle == TERM then Go(s, i, Left)
    else Put(s, i, w.(pc := IdleTimers, idle := EXEC)).(idle := s.idle + 1)
  }

  /** The task is run: a fiber that has not finished, or a callback on the callback fiber. */
  function SwapInStep(s: State, i: nat): State
    requires i < |s.workers| && s.workers[i].pc.Hand?
  {
    var w := s.workers[i];
    match w.pc.task.cont
    case FiberCont(f) =>
      if Finished(s.fibers, f) then Go(s, i, Head).(active := s.active - 1)
      else Go(s, i, Running(f, false, false, None, false)).(fibers := SetState(s.fibers, f, EXEC))
    case CallCont(cb) =>
      var c := if w.cbFiber.Some? then w.cbFiber.value else |s.fibers|;
      var fibers := if w.cbFiber.Some? then ResetFiber(s.fibers, c, true) else s.fibers + [Fiber(INIT, true)];
      var owes := if cb.Wake? then Some(cb.fiber) else None;
      var w' := w.(pc := Running(c, true, false, owes, false), cbFiber := Some(c));
      Put(s, i, w').(fibers := SetState(fibers, c, EXEC))
  }

  /** The end of a stay on the stack: the state is written, then the stack is left. */
  function LeaveStep(s: State, i: nat, state: FiberState): State
    requires i < |s.workers| && s.workers[i].pc.Running?
  {
    var pc := s.workers[i].pc;
    var f := pc.fiber;
    var fibers := if state == TERM && f < |s.fibers| then s.fibers[f := Fiber(TERM, false)]
                  else SetState(s.fibers, f, state);
    Go(s, i, pc.(parked := true)).(fibers := fibers)
  }

  /** What `run` does after the switch back. */
  function BackStep(s: State, i: nat): State
    requires i < |s.workers| && s.workers[i].pc.Running?
  {
    var w := s.workers[i];
    var f := w.pc.fiber;
    var s1 := s.(active := s.active - 1);
    match StateOf(s.fibers, f)
    case READY => Put(s1, i, w.(pc := Requeue(f), cbFiber := if w.pc.own then None else w.cbFiber))
    case TERM | EXCEPT => Go(s1, i, Head).(fibers := if w.pc.own then ResetFiber(s.fibers, f, false) else s.fibers)
    case _ =>
      var w' := w.(pc := Head, cbFiber := if w.pc.own then None else w.cbFiber);
      Put(s1, i, w').(fibers := SetState(s.fibers, f, HOLD))
  }

  /** The end of the idle loop's check: the idle fiber ends where all three answers were yes. */
  function ReadQueueStep(s: State, i: nat): State
    requires i < |s.workers|
  {
    if s.autoStop && s.stopping && s.queue == [] && s.active == 0 then
      Put(s, i, s.workers[i].(pc := Head, idle := TERM)).(idle := s.idle - 1)
    else Go(s, i, IdleWait)
  }

  function FireStep(s: State, i: nat, now: uint64): State
    requires i < |s.workers|
  {
    var k := ExpireCount(s.timers, now, s.previous);
    Go(s, i, IdleSubmit(Callbacks(s.timers[..k])))
      .(timers := Rearm(s.timers[..k], s.timers[k..], now), previous := if s.timers == [] then s.previous else now)
  }

  /** An operation on the event table, with what it hands to the scheduler. */
  function TableStep(s: State, op: E.Op): State
    requires |s.table.fds| >= 32
  {
    var f := E.Apply(s.table, op);
    s.(table := f.table, queue := s.queue + AsTasks(f.handed))
  }

  function TimerStep(s: State, ms: uint64, now: uint64, recurring: bool, cb: Callback): State {
    s.(timers := Insert(s.timers, Entry(Add64(now, ms), s.nextAddr, ms, recurring, cb)), nextAddr := s.nextAddr + 1)
  }

  // ----- Steps -----

  /** A running fiber that may act: not parked, and not inside the wake-up callback of a sleeper. */
  predicate Acting(s: State, i: nat) {
    i < |s.workers| && s.workers[i].pc.Running? && !s.workers[i].pc.parked && s.workers[i].pc.owes.None?
  }

  predicate Acts(s: State, who: Who) {
    who.Inside? ==> Acting(s, who.worker)
  }

  predicate At(s: State, i: nat, pc: Pc) {
    i < |s.workers| && s.workers[i].pc == pc
  }

  /**
    * Which steps a state allows. The discipline of the clients is part of it: a fiber leaves one wake-up of its own
    * behind, in an event slot or in a sleep timer, and then yields to hold; only a fiber that left none may yield to
    * ready or end. Fibers are submitted when they are new.
    */
  predicate Enabled(s: State, l: Label) {
    |s.table.fds| >= 32 &&
    match l
    case Take(i) => At(s, i, Head)
    case SwapIn(i) => i < |s.workers| && s.workers[i].pc.Hand?
    case Submit(who, _, _) => Acts(s, who)
    case Spawn(who, _) => Acts(s, who)
    case Operate(who, op) =>
      && Acts(s, who) && !op.OpDispatch? && !E.Aborts(s.table, op)
      && (op.OpAdd? ==> op.cont.CallCont? && !op.cont.cb.Wake?)
    case Register(i, fd, event, willing) =>
      Acting(s, i) && !s.workers[i].pc.armed && !E.Software(s.table.fds, fd).Has(event)
    case Sleep(i, _, _) => Acting(s, i) && !s.workers[i].pc.armed
    case AddTimer(who, _, _, _, cb) => Acts(s, who) && !cb.Wake?
    case CancelTimer(who, k) => Acts(s, who) && k < |s.timers|
    case Deliver(i) => i < |s.workers| && s.workers[i].pc.Running? && s.workers[i].pc.owes.Some?
    case Leave(i, state) =>
      && Acting(s, i) && state in {HOLD, READY, TERM, EXCEPT}
      && (state == HOLD || !s.workers[i].pc.armed)
    case Back(i) =>
      i < |s.workers| && s.workers[i].pc.Running? && s.workers[i].pc.parked && s.workers[i].pc.owes.None?
    case Again(i) => i < |s.workers| && s.workers[i].pc.Requeue?
    case ReadTimers(i, _) => At(s, i, IdleTimers)
    case ReadPending(i) => At(s, i, IdlePending)
    case ReadQueue(i) => At(s, i, IdleQueue)
    case Fire(i, _) => At(s, i, IdleWait)
    case SubmitFired(i) => i < |s.workers| && s.workers[i].pc.IdleSubmit?
    case Dispatch(i, fd, flags, willing) =>
      At(s, i, IdleDispatch) && !E.Aborts(s.table, E.OpDispatch(fd, flags, willing))
    case IdleOut(i) => At(s, i, IdleDispatch)
    case Stop => true
  }

  function Next(s: State, l: Label): State
    requires Enabled(s, l)
  {
    match l
    case Take(i) => TakeStep(s, i)
    case SwapIn(i) => SwapInStep(s, i)
    case Submit(_, id, thread) => s.(queue := s.queue + [Task(CallCont(User(id)), thread)])
    case Spawn(_, thread) =>
      s.(fibers := s.fibers + [Fiber(INIT, true)], queue := s.queue + [Task(FiberCont(|s.fibers|), thread)])
    case Operate(_, op) => TableStep(s, op)
    case Register(i, fd, event, willing) =>
      var pc := s.workers[i].pc;
      var op := E.OpAdd(fd, event, FiberCont(pc.fiber), willing);
      Go(TableStep(s, op), i, pc.(armed := E.Apply(s.table, op).ok))
    case Sleep(i, ms, now) =>
      var pc := s.workers[i].pc;
      Go(TimerStep(s, ms, now, false, Wake(pc.fiber)), i, pc.(armed := true))
    case AddTimer(_, ms, now, recurring, cb) => TimerStep(s, ms, now, recurring, cb)
    case CancelTimer(_, k) => s.(timers := RemoveAt(s.timers, k))
    case Deliver(i) =>
      var pc := s.workers[i].pc;
      Go(s, i, pc.(owes := None)).(queue := s.queue + [Task(FiberCont(pc.owes.value), ANY)])
    case Leave(i, state) => LeaveStep(s, i, state)
    case Back(i) => BackStep(s, i)
    case Again(i) => Go(s, i, Head).(queue := s.queue + [Task(FiberCont(s.workers[i].pc.again), ANY)])
    case ReadTimers(i, now) => Go(s, i, if NextTimeout(s.timers, now) == NONE64 then IdlePending else IdleWait)
    case ReadPending(i) => Go(s, i, if s.table.pending == 0 then IdleQueue else IdleWait)
    case ReadQueue(i) => ReadQueueStep(s, i)
    case Fire(i, now) => FireStep(s, i, now)
    case SubmitFired(i) => Go(s, i, IdleDispatch).(queue := s.queue + Calls(s.workers[i].pc.fired))
    case Dispatch(_, fd, flags, willing) => TableStep(s, E.OpDispatch(fd, flags, willing))
    case IdleOut(i) => Put(s, i, s.workers[i].(pc := Head, idle := HOLD)).(idle := s.idle - 1)
    case Stop => s.(autoStop := true, stopping := true)
  }

  /** The labels, one after the other, are steps. */
  predicate Runs(s: State, ls: seq<Label>)
    decreases |ls|
  {
    ls == [] || (Enabled(s, ls[0]) && Runs(Next(s, ls[0]), ls[1..]))
  }

  function Final(s: State, ls: seq<Label>): State
    requires Runs(s, ls)
    decreases |ls|
  {
    if ls == [] then s else Final(Next(s, ls[0]), ls[1..])
  }

  // ----- Wake-up rights -----

  function TaskConts(t: Task): multiset<Cont> { multiset{t.cont} }

  function TimerConts(e: Entry<Callback>): multiset<Cont> { multiset{CallCont(e.cb)} }

  function RecurringConts(e: Entry<Callback>): multiset<Cont> { if e.recurring then TimerConts(e) else multiset{} }

  function CallConts(cb: Callback): multiset<Cont> { multiset{CallCont(cb)} }

  /** The continuations that a worker has in its hands. */
  ghost function Claim(w: Worker): multiset<Cont> {
    match w.pc
    case Hand(t) => TaskConts(t)
    case Running(_, _, _, owes, _) => if owes.Some? then multiset{CallCont(Wake(owes.value))} else multiset{}
    case Requeue(f) => multiset{FiberCont(f)}
    case IdleSubmit(cbs) => Gather(cbs, CallConts)
    case _ => multiset{}
  }

  /** How many copies of a continuation are queued, or in the hands of a worker. */
  ghost function Work(s: State, k: Cont): nat {
    Gather(s.queue, TaskConts)[k] + Gather(s.workers, Claim)[k]
  }

  /** How many copies of a continuation there are: queued, handed, in an event slot, or in a timer. */
  ghost function InFlight(s: State, k: Cont): nat {
    Work(s, k) + E.Slots(s.table)[k] + Gather(s.timers, TimerConts)[k]
  }

  /** How often a bag of continuations resumes a fiber. */
  function Claims(b: multiset<Cont>, f: FiberId): nat {
    b[FiberCont(f)] + b[CallCont(Wake(f))]
  }

  /** The wake-up rights of a fiber: the continuations that would resume it. */
  ghost function Rights(s: State, f: FiberId): nat {
    InFlight(s, FiberCont(f)) + InFlight(s, CallCont(Wake(f)))
  }

  /** The continuations that a step creates. */
  ghost function Made(s: State, l: Label): multiset<Cont>
    requires Enabled(s, l)
  {
    match l
    case Submit(_, id, _) => multiset{CallCont(User(id))}
    case Spawn(_, _) => multiset{FiberCont(|s.fibers|)}
    case Operate(_, op) => E.Apply(s.table, op).stored
    case Register(i, fd, event, willing) =>
      E.Apply(s.table, E.OpAdd(fd, event, FiberCont(s.workers[i].pc.fiber), willing)).stored
    case Sleep(i, _, _) => multiset{CallCont(Wake(s.workers[i].pc.fiber))}
    case AddTimer(_, _, _, _, cb) => multiset{CallCont(cb)}
    case Deliver(i) => multiset{FiberCont(s.workers[i].pc.owes.value)}
    case Back(i) =>
      if StateOf(s.fibers, s.workers[i].pc.fiber) == READY then multiset{FiberCont(s.workers[i].pc.fiber)}
      else multiset{}
    case Fire(_, now) => Gather(s.timers[..ExpireCount(s.timers, now, s.previous)], RecurringConts)
    case _ => multiset{}
  }

  /** The continuations that a step uses up. */
  ghost function Used(s: State, l: Label): multiset<Cont>
    requires Enabled(s, l)
  {
    match l
    case SwapIn(i) =>
      var k := s.workers[i].pc.task.cont;
      if k.CallCont? && k.cb.Wake? then multiset{} else multiset{k}
    case Operate(_, op) => E.Apply(s.table, op).dropped
    case CancelTimer(_, k) => TimerConts(s.timers[k])
    case Deliver(i) => multiset{CallCont(Wake(s.workers[i].pc.owes.value))}
    case _ => multiset{}
  }
}

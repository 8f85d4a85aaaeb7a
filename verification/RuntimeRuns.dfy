/** Safety over whole runs: one stack per fiber, one wake-up per registration, and every assertion of the code. */
module RuntimeRuns {
  import opened Bags
  import opened Tasks
  import opened Timers
  import opened Runtime
  import opened RuntimeCore
  import opened RuntimeSafety

  // ----- The other parts of the invariant -----

  lemma TableStays(s: State, l: Label)
    requires Enabled(s, l) && E.Inv(s.table)
    ensures E.Inv(Next(s, l).table)
  {
    match l
    case Operate(_, op) => E.ApplyKeeps(s.table, op);
    case Register(i, fd, event, willing) =>
      E.ApplyKeeps(s.table, E.OpAdd(fd, event, FiberCont(s.workers[i].pc.fiber), willing));
    case Dispatch(_, fd, flags, willing) => E.ApplyKeeps(s.table, E.OpDispatch(fd, flags, willing));
    case _ => assert Next(s, l).table == s.table;
  }

  lemma {:induction false} RearmSleepOnce(expired: seq<Entry<Callback>>, rest: seq<Entry<Callback>>, now: uint64)
    requires SleepOnce(expired) && SleepOnce(rest)
    ensures SleepOnce(Rearm(expired, rest, now))
    decreases |expired|
  {
    if expired != [] {
      var e := expired[0];
      assert e in expired;
      assert SleepOnce(expired[1..]);
      if e.recurring {
        InsertSleepOnce(rest, Rearmed(e, now));
        RearmSleepOnce(expired[1..], Insert(rest, Rearmed(e, now)), now);
      } else {
        RearmSleepOnce(expired[1..], rest, now);
      }
    }
  }

  lemma InsertSleepOnce(ts: seq<Entry<Callback>>, e: Entry<Callback>)
    requires SleepOnce(ts) && (e.recurring ==> !e.cb.Wake?)
    ensures SleepOnce(Insert(ts, e))
  {
    InsertElements(ts, e);
    forall x | x in Insert(ts, e) ensures x.recurring ==> !x.cb.Wake? {
      assert x in multiset(Insert(ts, e));
    }
  }

  lemma TimersStay(s: State, l: Label)
    requires Enabled(s, l) && SleepOnce(s.timers)
    ensures SleepOnce(Next(s, l).timers)
  {
    match l
    case Sleep(i, ms, now) =>
      InsertSleepOnce(s.timers, Entry(Add64(now, ms), s.nextAddr, ms, false, Wake(s.workers[i].pc.fiber)));
    case AddTimer(_, ms, now, recurring, cb) =>
      InsertSleepOnce(s.timers, Entry(Add64(now, ms), s.nextAddr, ms, recurring, cb));
    case CancelTimer(_, _) =>
    case Fire(_, now) =>
      var k := ExpireCount(s.timers, now, s.previous);
      RearmSleepOnce(s.timers[..k], s.timers[k..], now);
    case _ => assert Next(s, l).timers == s.timers;
  }

  lemma OneCounted(s: State, s': State, i: nat, g: Worker -> nat)
    requires i < |s.workers| && |s'.workers| == |s.workers| && s'.workers == s.workers[i := s'.workers[i]]
    ensures Total(s'.workers, g) + g(s.workers[i]) == Total(s.workers, g) + g(s'.workers[i])
  {
    TotalUpdate(s.workers, i, s'.workers[i], g);
  }

  /** The worker that a step moves, if any. */
  function Mover(l: Label): Option<nat> {
    match l
    case Submit(_, _, _) => None
    case Spawn(_, _) => None
    case Operate(_, _) => None
    case AddTimer(_, _, _, _, _) => None
    case CancelTimer(_, _) => None
    case Dispatch(_, _, _, _) => None
    case Stop => None
    case _ => Some(l.i)
  }

  /** The counters move with the one worker that changes. */
  ghost predicate Counted(s: State, s': State, i: nat) {
    && i < |s.workers| && |s'.workers| == |s.workers| && s'.workers == s.workers[i := s'.workers[i]]
    && s'.active - s.active == Busy(s'.workers[i]) - Busy(s.workers[i])
    && s'.idle - s.idle == Idle(s'.workers[i]) - Idle(s.workers[i])
  }

  lemma TakeCounts(s: State, i: nat)
    requires Enabled(s, Take(i))
    ensures Counted(s, TakeStep(s, i), i)
  {
  }

  lemma SwapInCounts(s: State, i: nat)
    requires Enabled(s, SwapIn(i))
    ensures Counted(s, SwapInStep(s, i), i)
  {
  }

  lemma BackCounts(s: State, i: nat)
    requires Enabled(s, Back(i))
    ensures Counted(s, BackStep(s, i), i)
  {
  }

  lemma MoverMoves(s: State, l: Label)
    requires Enabled(s, l) && Mover(l).Some?
    ensures Counted(s, Next(s, l), Mover(l).value)
  {
    match l
    case Take(i) => TakeCounts(s, i);
    case SwapIn(i) => SwapInCounts(s, i);
    case Back(i) => BackCounts(s, i);
    case _ =>
  }

  /** The two thread counters agree with what the workers do. */
  lemma CountersStay(s: State, l: Label)
    requires Enabled(s, l) && s.active == Total(s.workers, Busy) && s.idle == Total(s.workers, Idle)
    ensures var s' := Next(s, l); s'.active == Total(s'.workers, Busy) && s'.idle == Total(s'.workers, Idle)
  {
    if Mover(l).Some? {
      MoverMoves(s, l);
      OneCounted(s, Next(s, l), Mover(l).value, Busy);
      OneCounted(s, Next(s, l), Mover(l).value, Idle);
    }
  }

  /** Every step but an overlapping swap-in keeps the invariant. */
  lemma SoundStays(s: State, l: Label)
    requires Enabled(s, l) && Sound(s) && !Overlaps(s, l)
    ensures Sound(Next(s, l))
  {
    TableStays(s, l);
    TimersStay(s, l);
    CountersStay(s, l);
    CoreStays(s, l);
  }

  // ----- One stack per fiber -----

  /** No fiber is on the stacks of two workers. */
  predicate Alone(s: State) {
    forall i, j | 0 <= i < j < |s.workers| ::
      !(s.workers[i].pc.Running? && s.workers[j].pc.Running? && s.workers[i].pc.fiber == s.workers[j].pc.fiber)
  }

  predicate AlwaysAlone(s: State, ls: seq<Label>)
    requires Runs(s, ls)
    decreases |ls|
  {
    Alone(s) && (ls != [] ==> AlwaysAlone(Next(s, ls[0]), ls[1..]))
  }

  predicate NeverOverlaps(s: State, ls: seq<Label>)
    requires Runs(s, ls)
    decreases |ls|
  {
    ls != [] ==> !Overlaps(s, ls[0]) && NeverOverlaps(Next(s, ls[0]), ls[1..])
  }

  lemma SoundIsAlone(s: State)
    requires Sound(s)
    ensures Alone(s)
  {
    forall i, j | 0 <= i < j < |s.workers| ensures PairOk(s.workers[i], s.workers[j]) {
    }
  }

  lemma OverlapShows(s: State, l: Label)
    requires Enabled(s, l) && Overlaps(s, l)
    ensures !Alone(Next(s, l))
  {
    var i, g := l.i, s.workers[l.i].pc.task.cont.fiber;
    var j :| 0 <= j < |s.workers| && OnStack(s.workers[j], g);
    var s' := SwapInStep(s, i);
    assert s'.workers[i].pc.Running? && s'.workers[i].pc.fiber == g && s'.workers[j] == s.workers[j];
    var lo, hi := if i < j then i else j, if i < j then j else i;
    assert s'.workers[lo].pc.Running? && s'.workers[hi].pc.Running?
           && s'.workers[lo].pc.fiber == s'.workers[hi].pc.fiber;
  }

  /** A run never puts a fiber on two workers exactly when none of its swap-ins takes a fiber still on a stack. */
  lemma {:induction false} AloneIffNoOverlap(s: State, ls: seq<Label>)
    requires Sound(s) && Runs(s, ls)
    ensures AlwaysAlone(s, ls) <==> NeverOverlaps(s, ls)
    decreases |ls|
  {
    SoundIsAlone(s);
    if ls != [] {
      if Overlaps(s, ls[0]) {
        OverlapShows(s, ls[0]);
      } else {
        SoundStays(s, ls[0]);
        AloneIffNoOverlap(Next(s, ls[0]), ls[1..]);
      }
    }
  }

  lemma {:induction false} RunSound(s: State, ls: seq<Label>)
    requires Sound(s) && Runs(s, ls) && NeverOverlaps(s, ls)
    ensures Sound(Final(s, ls))
    decreases |ls|
  {
    if ls != [] {
      SoundStays(s, ls[0]);
      RunSound(Next(s, ls[0]), ls[1..]);
    }
  }

  /** Every yield is booked at once: nothing happens between the write of the state and the worker's bookkeeping. */
  predicate Atomic(ls: seq<Label>)
    decreases |ls|
  {
    ls == [] || (if ls[0].Leave? then |ls| >= 2 && ls[1] == Back(ls[0].i) && Atomic(ls[2..]) else Atomic(ls[1..]))
  }

  predicate NobodyParked(s: State) {
    forall i | 0 <= i < |s.workers| :: !(s.workers[i].pc.Running? && s.workers[i].pc.parked)
  }

  /** A swap-in overlaps exactly when the fiber it takes is parked on another worker: its yield is not booked yet. */
  lemma OverlapsIffParked(s: State, i: nat)
    requires Enabled(s, SwapIn(i)) && Sound(s)
    ensures Overlaps(s, SwapIn(i)) <==>
            s.workers[i].pc.task.cont.FiberCont? &&
            exists j | 0 <= j < |s.workers| :: Hosts(s.workers[j], s.workers[i].pc.task.cont.fiber, true)
  {
    if s.workers[i].pc.task.cont.FiberCont? {
      var g := s.workers[i].pc.task.cont.fiber;
      HandIsLive(s, i, g);
      forall j | 0 <= j < |s.workers| ensures OnStack(s.workers[j], g) <==> Hosts(s.workers[j], g, true) {
        assert WorkerOk(s.fibers, s.workers[j], RightsOf(s));
      }
    }
  }

  /** A fiber whose yield is booked is off every stack when its right is in a worker's hands. */
  lemma UnparkedNoOverlap(s: State, l: Label)
    requires Enabled(s, l) && Sound(s) && NobodyParked(s)
    ensures !Overlaps(s, l)
  {
    if l.SwapIn? {
      OverlapsIffParked(s, l.i);
    }
  }

  lemma UnparkedStays(s: State, l: Label)
    requires Enabled(s, l) && NobodyParked(s) && !l.Leave?
    ensures NobodyParked(Next(s, l))
  {
    if Mover(l).Some? {
      MoverMoves(s, l);
      var i := Mover(l).value;
      assert !s.workers[i].pc.Running? || !s.workers[i].pc.parked;
      MoverUnparked(s, l);
    }
  }

  lemma MoverUnparked(s: State, l: Label)
    requires Enabled(s, l) && !l.Leave? && Mover(l).Some?
    requires s.workers[l.i].pc.Running? ==> !s.workers[l.i].pc.parked
    ensures Next(s, l).workers[l.i].pc.Running? ==> !Next(s, l).workers[l.i].pc.parked
  {
  }

  lemma YieldUnparks(s: State, i: nat, state: FiberState)
    requires Enabled(s, Leave(i, state)) && NobodyParked(s) && Enabled(Next(s, Leave(i, state)), Back(i))
    ensures NobodyParked(Next(Next(s, Leave(i, state)), Back(i)))
  {
    var s1 := LeaveStep(s, i, state);
    BackCounts(s1, i);
    assert forall j | 0 <= j < |s.workers| && j != i :: s1.workers[j] == s.workers[j];
    assert !BackStep(s1, i).workers[i].pc.Running?;
  }

  /** So a run whose yields are atomic never runs a fiber on two workers. */
  lemma {:induction false} AtomicNeverOverlaps(s: State, ls: seq<Label>)
    requires Sound(s) && NobodyParked(s) && Runs(s, ls) && Atomic(ls)
    ensures NeverOverlaps(s, ls)
    decreases |ls|
  {
    if ls != [] {
      var l := ls[0];
      UnparkedNoOverlap(s, l);
      SoundStays(s, l);
      if l.Leave? {
        var s1 := Next(s, l);
        assert Runs(s1, ls[1..]) && ls[1..][0] == Back(l.i) && ls[1..][1..] == ls[2..];
        assert !Overlaps(s1, Back(l.i));
        SoundStays(s1, Back(l.i));
        YieldUnparks(s, l.i, l.state);
        AtomicNeverOverlaps(Next(s1, Back(l.i)), ls[2..]);
      } else {
        UnparkedStays(s, l);
        AtomicNeverOverlaps(Next(s, l), ls[1..]);
      }
    }
  }

  /** What has become of a fiber that left in a state, once the worker has booked it. */
  function Booked(x: Fiber, state: FiberState, own: bool): Fiber {
    match state
    case TERM => if own then Fiber(INIT, false) else Fiber(TERM, false)
    case EXCEPT => if own then Fiber(INIT, false) else Fiber(EXCEPT, x.hasBody)
    case _ => Fiber(state, x.hasBody)
  }

  lemma LeaveOutcome(s: State, i: nat, state: FiberState)
    requires i < |s.workers| && s.workers[i].pc.Running? && s.workers[i].pc.fiber < |s.fibers|
    ensures
      var f := s.workers[i].pc.fiber;
      LeaveStep(s, i, state) == s.(fibers := s.fibers[f := Fiber(state, state != TERM && s.fibers[f].hasBody)],
                                   workers := s.workers[i := s.workers[i].(pc := s.workers[i].pc.(parked := true))])
  {
  }

  lemma BackOutcome(s: State, i: nat)
    requires i < |s.workers| && s.workers[i].pc.Running? && s.workers[i].pc.fiber < |s.fibers|
    requires s.fibers[s.workers[i].pc.fiber].state in {HOLD, READY, TERM, EXCEPT}
    ensures
      var w, f := s.workers[i], s.workers[i].pc.fiber;
      var x := s.fibers[f];
      var x' := if w.pc.own && x.state in {TERM, EXCEPT} then Fiber(INIT, false) else x;
      var w' := w.(pc := if x.state == READY then Requeue(f) else Head,
                   cbFiber := if w.pc.own && x.state in {HOLD, READY} then None else w.cbFiber);
      BackStep(s, i) == s.(fibers := s.fibers[f := x'], workers := s.workers[i := w'], active := s.active - 1)
  {
  }

  /** The worker after a yield. */
  function BookedWorker(w: Worker, state: FiberState): Worker
    requires w.pc.Running?
  {
    w.(pc := if state == READY then Requeue(w.pc.fiber) else Head,
       cbFiber := if w.pc.own && state in {HOLD, READY} then None else w.cbFiber)
  }

  lemma YieldSteps(s: State, i: nat, state: FiberState)
    requires i < |s.workers| && s.workers[i].pc.Running? && s.workers[i].pc.fiber < |s.fibers|
    requires state in {HOLD, READY, TERM, EXCEPT}
    ensures
      var w := s.workers[i];
      BackStep(LeaveStep(s, i, state), i)
      == s.(fibers := s.fibers[w.pc.fiber := Booked(s.fibers[w.pc.fiber], state, w.pc.own)],
            workers := s.workers[i := BookedWorker(w, state)], active := s.active - 1)
  {
    LeaveOutcome(s, i, state);
    BackOutcome(LeaveStep(s, i, state), i);
  }

  /**
    * A yield as one step: only the fiber and its worker change. A READY fiber is in the worker's hands to be queued; an
    * ended callback fiber is kept for reuse, and one that can go on is given away; the worker is counted inactive.
    */
  lemma YieldOutcome(s: State, i: nat, state: FiberState)
    requires Enabled(s, Leave(i, state)) && Sound(s)
    ensures Enabled(LeaveStep(s, i, state), Back(i))
    ensures
      var w := s.workers[i];
      w.pc.fiber < |s.fibers| &&
      BackStep(LeaveStep(s, i, state), i)
      == s.(fibers := s.fibers[w.pc.fiber := Booked(s.fibers[w.pc.fiber], state, w.pc.own)],
            workers := s.workers[i := BookedWorker(w, state)], active := s.active - 1)
  {
    assert s.workers[i].pc.fiber < |s.fibers| by {
      assert WorkerOk(s.fibers, s.workers[i], RightsOf(s));
    }
    YieldSteps(s, i, state);
  }

  /** An idle worker ends its idle fiber exactly when a stop is asked for and no task is queued or with a worker. */
  lemma IdleEndsIff(s: State, i: nat)
    requires Enabled(s, ReadQueue(i)) && Sound(s)
    ensures
      Next(s, ReadQueue(i)).workers[i].idle == TERM <==>
      s.autoStop && s.stopping && s.queue == [] && forall j | 0 <= j < |s.workers| :: Busy(s.workers[j]) == 0
  {
    assert WorkerOk(s.fibers, s.workers[i], RightsOf(s));
    if s.active == 0 {
      TotalZero(s.workers, Busy);
    } else if forall j | 0 <= j < |s.workers| :: Busy(s.workers[j]) == 0 {
      TotalNone(s.workers, Busy);
    }
  }

  // ----- Wake-ups, exactly once -----

  /** How often a step gives a fiber a right: a new task, a registration, a sleep, a yield to ready. */
  ghost function Granted(s: State, l: Label, f: FiberId): nat
    requires Enabled(s, l)
  {
    if l.Deliver? then 0 else Claims(Made(s, l), f)
  }

  /** The step resumes the fiber. */
  function Resumed(s: State, l: Label, f: FiberId): nat
    requires Enabled(s, l)
  {
    if l.SwapIn? && s.workers[l.i].pc.task.cont == FiberCont(f) then 1 else 0
  }

  /** How often a step drops a right of a fiber unused: `delEvent` on its slot, or its timer cancelled. */
  ghost function Dropped(s: State, l: Label, f: FiberId): nat
    requires Enabled(s, l)
  {
    if l.Operate? || l.CancelTimer? then Claims(Used(s, l), f) else 0
  }

  ghost function Grants(s: State, ls: seq<Label>, f: FiberId): nat
    requires Runs(s, ls)
    decreases |ls|
  {
    if ls == [] then 0 else Granted(s, ls[0], f) + Grants(Next(s, ls[0]), ls[1..], f)
  }

  ghost function Resumes(s: State, ls: seq<Label>, f: FiberId): nat
    requires Runs(s, ls)
    decreases |ls|
  {
    if ls == [] then 0 else Resumed(s, ls[0], f) + Resumes(Next(s, ls[0]), ls[1..], f)
  }

  ghost function Drops(s: State, ls: seq<Label>, f: FiberId): nat
    requires Runs(s, ls)
    decreases |ls|
  {
    if ls == [] then 0 else Dropped(s, ls[0], f) + Drops(Next(s, ls[0]), ls[1..], f)
  }

  lemma StepAccounts(s: State, l: Label, f: FiberId)
    requires Enabled(s, l) && E.Inv(s.table)
    ensures Rights(Next(s, l), f) + Resumed(s, l, f) + Dropped(s, l, f) == Rights(s, f) + Granted(s, l, f)
  {
    RightsMove(s, l, f);
    UsedKinds(s, l, f);
  }

  lemma UsedKinds(s: State, l: Label, f: FiberId)
    requires Enabled(s, l)
    ensures Claims(Used(s, l), f) - Claims(Made(s, l), f) == Resumed(s, l, f) + Dropped(s, l, f) - Granted(s, l, f)
  {
  }

  /**
    * Over a whole run every right of a fiber is used exactly once: to resume it, or dropped, or it is still there;
    * and there is never more than one.
    */
  lemma {:induction false} EveryWakeUpOnce(s: State, ls: seq<Label>, f: FiberId)
    requires Sound(s) && Runs(s, ls) && NeverOverlaps(s, ls)
    ensures Rights(Final(s, ls), f) + Resumes(s, ls, f) + Drops(s, ls, f) == Rights(s, f) + Grants(s, ls, f)
    ensures Rights(Final(s, ls), f) <= 1
    decreases |ls|
  {
    if ls == [] {
      assert FiberOk(s.fibers, s.workers, RightsOf(s), QueuedOf(s), f);
      assert RightsOf(s)(f) == Rights(s, f);
    } else {
      StepAccounts(s, ls[0], f);
      SoundStays(s, ls[0]);
      EveryWakeUpOnce(Next(s, ls[0]), ls[1..], f);
    }
  }

  // ----- The assertions of the code -----

  /** The state assertions that a step meets, with what the code relies on beside them. */
  predicate AssertsHold(s: State, l: Label)
    requires Enabled(s, l)
  {
    match l
    case Take(i) =>
      // at the loop head the callback fiber is absent, or INIT without a callback; the idle fiber can be swapped in
      var w := s.workers[i];
      && (w.cbFiber.Some? ==> w.cbFiber.value < |s.fibers| && s.fibers[w.cbFiber.value] == Fiber(INIT, false))
      && w.idle != EXEC
    case SwapIn(i) =>
      var w := s.workers[i];
      if w.pc.task.cont.FiberCont? then
        // `swapIn`: not EXEC; and never a finished fiber, nor one without a body
        var f := w.pc.task.cont.fiber;
        f < |s.fibers| && s.fibers[f].state != EXEC && !Finished(s.fibers, f) && s.fibers[f].hasBody
      else
        // `reset`: INIT, TERM or EXCEPT
        w.cbFiber.Some? ==> StateOf(s.fibers, w.cbFiber.value) in {INIT, TERM, EXCEPT}
    case Register(i, _, _, _) => StateOf(s.fibers, s.workers[i].pc.fiber) == EXEC
    case Leave(i, _) => StateOf(s.fibers, s.workers[i].pc.fiber) == EXEC
    case _ => true
  }

  lemma SoundAsserts(s: State, l: Label)
    requires Enabled(s, l) && Sound(s)
    ensures AssertsHold(s, l)
  {
    match l
    case Take(i) => assert WorkerOk(s.fibers, s.workers[i], RightsOf(s));
    case SwapIn(i) =>
      assert WorkerOk(s.fibers, s.workers[i], RightsOf(s));
      var k := s.workers[i].pc.task.cont;
      if k.FiberCont? {
        HandIsLive(s, i, k.fiber);
      }
    case Register(i, _, _, _) => assert WorkerOk(s.fibers, s.workers[i], RightsOf(s));
    case Leave(i, _) => assert WorkerOk(s.fibers, s.workers[i], RightsOf(s));
    case _ =>
  }

  predicate AlwaysAsserts(s: State, ls: seq<Label>)
    requires Runs(s, ls)
    decreases |ls|
  {
    ls != [] ==> AssertsHold(s, ls[0]) && AlwaysAsserts(Next(s, ls[0]), ls[1..])
  }

  /** No run without overlap fails an assertion. */
  lemma {:induction false} RunAsserts(s: State, ls: seq<Label>)
    requires Sound(s) && Runs(s, ls) && NeverOverlaps(s, ls)
    ensures AlwaysAsserts(s, ls)
    decreases |ls|
  {
    if ls != [] {
      SoundAsserts(s, ls[0]);
      SoundStays(s, ls[0]);
      RunAsserts(Next(s, ls[0]), ls[1..]);
    }
  }

  // ----- Where runs start -----

  /** A pool of threads that has just been started. */
  function Boot(threads: seq<int>): State {
    State([], [], seq(|threads|, i requires 0 <= i < |threads| => Worker(threads[i], Head, INIT, None)),
          E.Initial(), [], 0, 0, 0, 0, false, false)
  }

  lemma BootSound(threads: seq<int>)
    ensures Sound(Boot(threads)) && NobodyParked(Boot(threads))
  {
    var s := Boot(threads);
    E.InitialInv();
    TotalNone(s.workers, Busy);
    TotalNone(s.workers, Idle);
    GatherNone(s.workers, Claim);
    forall f: nat ensures RightsOf(s)(f) == 0 {
    }
  }
}

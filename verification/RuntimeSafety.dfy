/** The invariant of the runtime, and its safety over whole runs. */
module RuntimeSafety {
  import opened Bags
  import opened Tasks
  import opened Timers
  import opened Scheduling
  import opened Runtime
  import opened RuntimeRights
  import opened RuntimeCore

  ghost function RightsOf(s: State): Count {
    (f: FiberId) => Rights(s, f)
  }

  ghost function QueuedOf(s: State): Count {
    (f: FiberId) => Work(s, FiberCont(f))
  }

  function Busy(w: Worker): nat { if w.pc.Hand? || w.pc.Running? then 1 else 0 }

  function Idle(w: Worker): nat { if Idling(w) then 1 else 0 }

  /** A timer that recurs never carries the wake-up of a sleeper. */
  predicate SleepOnce(timers: seq<Entry<Callback>>) {
    forall e <- timers :: e.recurring ==> !e.cb.Wake?
  }

  /** The invariant. */
  ghost predicate Sound(s: State) {
    && E.Inv(s.table)
    && SleepOnce(s.timers)
    && s.active == Total(s.workers, Busy) && s.idle == Total(s.workers, Idle)
    && Core(s.fibers, s.workers, RightsOf(s), QueuedOf(s))
  }

  /** The step puts a fiber on a stack while it is still on another one. */
  predicate Overlaps(s: State, l: Label)
    requires Enabled(s, l)
  {
    && l.SwapIn? && s.workers[l.i].pc.task.cont.FiberCont?
    && !Finished(s.fibers, s.workers[l.i].pc.task.cont.fiber)
    && exists j | 0 <= j < |s.workers| :: OnStack(s.workers[j], s.workers[l.i].pc.task.cont.fiber)
  }

  // ----- Rights and queue entries over one step -----

  lemma RightsMove(s: State, l: Label, f: FiberId)
    requires Enabled(s, l) && E.Inv(s.table)
    ensures Rights(Next(s, l), f) + Claims(Used(s, l), f) == Rights(s, f) + Claims(Made(s, l), f)
  {
    StepConserves(s, l, FiberCont(f));
    StepConserves(s, l, CallCont(Wake(f)));
  }

  lemma MoreQueued(s: State, s': State, more: seq<Task>, k: Cont)
    requires s'.workers == s.workers && s'.queue == s.queue + more
    ensures Work(s', k) >= Work(s, k)
  {
    ConcatAt(s.queue, more, TaskConts, k);
  }

  lemma SameWorker(s: State, s': State, i: nat, more: seq<Task>, k: Cont)
    requires i < |s.workers| && |s'.workers| == |s.workers|
    requires s'.workers == s.workers[i := s'.workers[i]] && s'.queue == s.queue + more
    requires Claim(s'.workers[i])[k] >= Claim(s.workers[i])[k]
    ensures Work(s', k) >= Work(s, k)
  {
    ConcatAt(s.queue, more, TaskConts, k);
    UpdateAt(s.workers, i, s'.workers[i], Claim, k);
  }

  /** Apart from a swap-in, no step takes a fiber out of the queue and the workers' hands. */
  lemma QueuedStays(s: State, l: Label, f: FiberId)
    requires Enabled(s, l) && E.Inv(s.table)
    ensures Work(Next(s, l), FiberCont(f))
            + (if l.SwapIn? then Used(s, l)[FiberCont(f)] else 0) >= Work(s, FiberCont(f))
  {
    var s', k := Next(s, l), FiberCont(f);
    match l
    case Operate(_, op) => MoreQueued(s, s', AsTasks(E.Apply(s.table, op).handed), k);
    case Dispatch(_, fd, flags, willing) =>
      MoreQueued(s, s', AsTasks(E.Apply(s.table, E.OpDispatch(fd, flags, willing)).handed), k);
    case Register(i, fd, event, willing) =>
      var op := E.OpAdd(fd, event, FiberCont(s.workers[i].pc.fiber), willing);
      SameWorker(s, s', i, AsTasks(E.Apply(s.table, op).handed), k);
    case Sleep(i, _, _) => SameWorker(s, s', i, [], k);
    case AddTimer(_, _, _, _, _) =>
    case CancelTimer(_, _) =>
    case Fire(i, _) => SameWorker(s, s', i, [], k);
    case _ => OthersQueued(s, l, k);
  }

  lemma OthersQueued(s: State, l: Label, k: Cont)
    requires Enabled(s, l) && E.Inv(s.table) && k.FiberCont?
    requires !l.Operate? && !l.Dispatch? && !l.Register? && !l.Sleep? && !l.AddTimer? && !l.CancelTimer? && !l.Fire?
    ensures Work(Next(s, l), k) + (if l.SwapIn? then Used(s, l)[k] else 0) >= Work(s, k)
  {
    var s' := Next(s, l);
    Elsewhere(s, l, k);
    assert InFlight(s', k) + Used(s, l)[k] >= InFlight(s, k) by {
      StepConserves(s, l, k);
    }
    assert E.Slots(s'.table)[k] == E.Slots(s.table)[k];
    assert Gather(s'.timers, TimerConts)[k] == Gather(s.timers, TimerConts)[k];
  }

  lemma Elsewhere(s: State, l: Label, k: Cont)
    requires Enabled(s, l) && k.FiberCont?
    requires !l.Operate? && !l.Dispatch? && !l.Register? && !l.Sleep? && !l.AddTimer? && !l.CancelTimer? && !l.Fire?
    ensures Next(s, l).table == s.table && Next(s, l).timers == s.timers
    ensures !l.SwapIn? ==> Used(s, l)[k] == 0
  {
    if l.SwapIn? {
      SwapInMovesNothingElse(s, l.i);
    } else if l.Back? {
      BackClaim(s, l.i);
    }
  }

  // ----- The core of the invariant, step by step -----

  ghost predicate CoreOf(s: State) {
    Core(s.fibers, s.workers, RightsOf(s), QueuedOf(s))
  }

  lemma {:induction false} RecurringClaims(ts: seq<Entry<Callback>>, f: FiberId)
    requires SleepOnce(ts)
    ensures Claims(Gather(ts, RecurringConts), f) == 0
  {
    if ts != [] {
      RecurringClaims(ts[..|ts| - 1], f);
    }
  }

  /** The steps that give no fiber a right. */
  predicate Quiet(l: Label) {
    !l.SwapIn? && !l.Spawn? && !l.Register? && !l.Sleep? && !l.Leave? && !l.Back?
  }

  lemma QuietClaims(s: State, l: Label, f: FiberId)
    requires Enabled(s, l) && SleepOnce(s.timers) && Quiet(l)
    ensures Claims(Made(s, l), f) <= Claims(Used(s, l), f)
  {
    match l
    case Fire(_, now) =>
      var k := ExpireCount(s.timers, now, s.previous);
      assert SleepOnce(s.timers[..k]);
      RecurringClaims(s.timers[..k], f);
    case _ =>
  }

  lemma QuietMoves(s: State, l: Label)
    requires Enabled(s, l) && E.Inv(s.table) && SleepOnce(s.timers) && Quiet(l)
    ensures forall f: nat :: RightsOf(Next(s, l))(f) <= RightsOf(s)(f) && QueuedOf(Next(s, l))(f) >= QueuedOf(s)(f)
  {
    forall f: nat ensures RightsOf(Next(s, l))(f) <= RightsOf(s)(f) && QueuedOf(Next(s, l))(f) >= QueuedOf(s)(f) {
      RightsMove(s, l, f);
      QuietClaims(s, l, f);
      QueuedStays(s, l, f);
    }
  }

  /** Submissions, table operations and timers: the workers stay where they are. */
  lemma ClientCore(s: State, l: Label)
    requires Enabled(s, l) && Sound(s)
    requires l.Submit? || l.Operate? || l.AddTimer? || l.CancelTimer? || l.Dispatch? || l.Stop?
    ensures CoreOf(Next(s, l))
  {
    var s' := Next(s, l);
    QuietMoves(s, l);
    assert s'.workers == s.workers && s'.fibers == s.fibers;
    LocalWorker(s.fibers, s.workers, RightsOf(s), QueuedOf(s), s'.workers, RightsOf(s'), QueuedOf(s'), |s.workers|);
  }

  /** A worker that has no fiber on its stack, before and after. */
  lemma LoopCore(s: State, l: Label)
    requires Enabled(s, l) && Sound(s)
    requires l.Take? || l.Again? || l.ReadTimers? || l.ReadPending? || l.ReadQueue? || l.Fire? || l.SubmitFired?
             || l.IdleOut?
    ensures CoreOf(Next(s, l))
  {
    assert WorkerOk(s.fibers, s.workers[l.i], RightsOf(s));
    LoopShape(s, l, Next(s, l));
    QuietMoves(s, l);
    OffStackFrom(s, Next(s, l), l.i);
  }

  lemma OffStackFrom(s: State, s': State, i: nat)
    requires CoreOf(s) && ChangesOffStack(s, s', i)
    requires forall f: nat :: RightsOf(s')(f) <= RightsOf(s)(f) && QueuedOf(s')(f) >= QueuedOf(s)(f)
    ensures CoreOf(s')
  {
    OffStackOk(s.fibers, s.workers[i], s'.workers[i], RightsOf(s), RightsOf(s'));
    LocalWorker(s.fibers, s.workers, RightsOf(s), QueuedOf(s), s'.workers, RightsOf(s'), QueuedOf(s'), i);
  }

  lemma OffStackOk(fibers: seq<Fiber>, w: Worker, w': Worker, r: Count, r': Count)
    requires WorkerOk(fibers, w, r) && OffStack(fibers, w, w') && forall f: nat :: r'(f) <= r(f)
    ensures WorkerOk(fibers, w', r')
    ensures forall f: nat, parked :: Hosts(w', f, parked) <==> Hosts(w, f, parked)
  {
  }

  lemma LoopShape(s: State, l: Label, s': State)
    requires Enabled(s, l) && s' == Next(s, l)
    requires l.Take? || l.Again? || l.ReadTimers? || l.ReadPending? || l.ReadQueue? || l.Fire? || l.SubmitFired?
             || l.IdleOut?
    requires (s.workers[l.i].idle == EXEC <==> Idling(s.workers[l.i]))
             && s.workers[l.i].idle in {INIT, EXEC, HOLD, TERM}
    ensures ChangesOffStack(s, s', l.i)
  {
    if l.Take? {
      TakeShape(s, l.i);
    }
  }

  ghost predicate ChangesOffStack(s: State, s': State, i: nat) {
    && i < |s.workers| && |s'.workers| == |s.workers|
    && s'.fibers == s.fibers && s'.workers == s.workers[i := s'.workers[i]]
       && OffStack(s.fibers, s.workers[i], s'.workers[i])
  }

  ghost predicate OffStack(fibers: seq<Fiber>, w: Worker, w': Worker) {
    && w'.cbFiber == w.cbFiber && !w.pc.Running? && !w'.pc.Running?
    && (w'.idle == EXEC <==> Idling(w')) && w'.idle in {INIT, EXEC, HOLD, TERM}
    && (w'.pc.Hand? && w'.pc.task.cont.FiberCont? ==> StateOf(fibers, w'.pc.task.cont.fiber) != EXEC)
  }

  lemma TakeShape(s: State, i: nat)
    requires i < |s.workers| && s.workers[i].pc == Head && s.workers[i].idle in {INIT, HOLD, TERM}
    ensures ChangesOffStack(s, TakeStep(s, i), i)
  {
  }

  lemma DeliverOk(fibers: seq<Fiber>, w: Worker, w': Worker, r: Count, r': Count)
    requires WorkerOk(fibers, w, r) && w.pc.Running? && w' == w.(pc := w.pc.(owes := None))
    requires forall f: nat :: r'(f) <= r(f)
    ensures WorkerOk(fibers, w', r')
    ensures forall f: nat, parked :: Hosts(w', f, parked) <==> Hosts(w, f, parked)
  {
  }

  lemma DeliverFrom(s: State, s': State, i: nat)
    requires CoreOf(s) && i < |s.workers| && s.workers[i].pc.Running? && s'.fibers == s.fibers
    requires s'.workers == s.workers[i := s.workers[i].(pc := s.workers[i].pc.(owes := None))]
    requires forall f: nat :: RightsOf(s')(f) <= RightsOf(s)(f) && QueuedOf(s')(f) >= QueuedOf(s)(f)
    ensures CoreOf(s')
  {
    DeliverOk(s.fibers, s.workers[i], s'.workers[i], RightsOf(s), RightsOf(s'));
    LocalWorker(s.fibers, s.workers, RightsOf(s), QueuedOf(s), s'.workers, RightsOf(s'), QueuedOf(s'), i);
  }

  lemma DeliverCore(s: State, i: nat)
    requires Enabled(s, Deliver(i)) && Sound(s)
    ensures CoreOf(Next(s, Deliver(i)))
  {
    QuietMoves(s, Deliver(i));
    DeliverFrom(s, Next(s, Deliver(i)), i);
  }

  // ----- Steps that change a fiber -----

  /** What a worker holds is in flight; what two workers hold is in flight twice. */
  lemma HeldInFlight(s: State, i: nat, j: nat, k: Cont)
    requires i < |s.workers| && j < |s.workers| && i != j
    ensures Claim(s.workers[i])[k] + Claim(s.workers[j])[k] <= InFlight(s, k)
  {
    GatherTwo(s.workers, if i < j then i else j, if i < j then j else i, Claim);
  }

  lemma HeldOnce(s: State, i: nat, k: Cont)
    requires i < |s.workers|
    ensures Claim(s.workers[i])[k] <= InFlight(s, k)
  {
    GatherSplit(s.workers, i, Claim);
  }

  /** A fiber without rights is in no worker's hands. */
  lemma NotInHand(s: State, j: nat, g: FiberId)
    requires j < |s.workers| && RightsOf(s)(g) == 0
    ensures !(s.workers[j].pc.Hand? && s.workers[j].pc.task.cont == FiberCont(g))
  {
    HeldOnce(s, j, FiberCont(g));
  }

  /** A right in one worker's hands is in no other worker's. */
  lemma HandIsAlone(s: State, i: nat, j: nat, g: FiberId)
    requires i < |s.workers| && j < |s.workers| && i != j && RightsOf(s)(g) <= 1
    requires s.workers[i].pc.Hand? && s.workers[i].pc.task.cont == FiberCont(g)
    ensures !(s.workers[j].pc.Hand? && s.workers[j].pc.task.cont == FiberCont(g))
  {
    HeldInFlight(s, i, j, FiberCont(g));
  }

  lemma SpawnCore(s: State, who: Who, thread: int)
    requires Enabled(s, Spawn(who, thread)) && Sound(s)
    ensures CoreOf(Next(s, Spawn(who, thread)))
  {
    var l, g := Spawn(who, thread), |s.fibers|;
    var s' := Next(s, l);
    Moves(s, l, g);
    RightsMove(s, l, g);
    assert RightsOf(s')(g) <= 1 by {
      assert FiberOk(s.fibers, s.workers, RightsOf(s), QueuedOf(s), g);
    }
    SpawnKeeps(s.fibers, s.workers, RightsOf(s), QueuedOf(s), RightsOf(s'), QueuedOf(s'));
  }

  /** Where only the rights of `g` are made, the others keep theirs. */
  lemma Moves(s: State, l: Label, g: FiberId)
    requires Enabled(s, l) && E.Inv(s.table)
    requires forall f: nat | f != g :: Claims(Made(s, l), f) <= Claims(Used(s, l), f)
    requires l.SwapIn? ==> forall f: nat | f != g :: Used(s, l)[FiberCont(f)] == 0
    ensures forall f: nat | f != g ::
              RightsOf(Next(s, l))(f) <= RightsOf(s)(f) && QueuedOf(Next(s, l))(f) >= QueuedOf(s)(f)
  {
    forall f: nat | f != g
      ensures RightsOf(Next(s, l))(f) <= RightsOf(s)(f) && QueuedOf(Next(s, l))(f) >= QueuedOf(s)(f)
    {
      RightsMove(s, l, f);
      QueuedStays(s, l, f);
    }
  }

  lemma ArmCore(s: State, l: Label)
    requires Enabled(s, l) && Sound(s) && (l.Register? || l.Sleep?)
    ensures CoreOf(Next(s, l))
  {
    ArmMade(s, l);
    ArmRights(s, l);
    ArmFrom(s, Next(s, l), l.i);
  }

  lemma ArmRights(s: State, l: Label)
    requires Enabled(s, l) && Sound(s) && (l.Register? || l.Sleep?)
    ensures
      var s', g := Next(s, l), s.workers[l.i].pc.fiber;
      && l.i < |s'.workers| && s'.workers[l.i].pc.Running?
      && RightsOf(s')(g) <= (if s'.workers[l.i].pc.armed then 1 else 0)
      && OthersKeep(g, RightsOf(s), RightsOf(s'), QueuedOf(s), QueuedOf(s'))
  {
    var g := s.workers[l.i].pc.fiber;
    ArmMade(s, l);
    Moves(s, l, g);
    assert RightsOf(s)(g) == 0 by {
      assert WorkerOk(s.fibers, s.workers[l.i], RightsOf(s));
    }
    RightsMove(s, l, g);
  }

  lemma ArmFrom(s: State, s': State, i: nat)
    requires CoreOf(s) && i < |s.workers| && s.workers[i].pc.Running? && !s.workers[i].pc.parked
             && s'.fibers == s.fibers
    requires |s'.workers| == |s.workers| && s'.workers[i].pc.Running?
    requires s'.workers == s.workers[i := s.workers[i].(pc := s.workers[i].pc.(armed := s'.workers[i].pc.armed))]
    requires RightsOf(s')(s.workers[i].pc.fiber) <= if s'.workers[i].pc.armed then 1 else 0
    requires OthersKeep(s.workers[i].pc.fiber, RightsOf(s), RightsOf(s'), QueuedOf(s), QueuedOf(s'))
    ensures CoreOf(s')
  {
    ArmKeeps(s.fibers, s.workers, RightsOf(s), QueuedOf(s), s'.workers, RightsOf(s'), QueuedOf(s'), i,
      s'.workers[i].pc.armed);
  }

  /** A registration makes one right, of the fiber that registers, exactly when it succeeds. */
  lemma ArmMade(s: State, l: Label)
    requires Enabled(s, l) && (l.Register? || l.Sleep?)
    ensures
      var s', g := Next(s, l), s.workers[l.i].pc.fiber;
      && s'.fibers == s.fibers && s'.workers[l.i].pc.Running?
      && s'.workers == s.workers[l.i := s.workers[l.i].(pc := s.workers[l.i].pc.(armed := s'.workers[l.i].pc.armed))]
      && Claims(Made(s, l), g) == (if s'.workers[l.i].pc.armed then 1 else 0)
      && (forall f: nat | f != g :: Claims(Made(s, l), f) == 0)
  {
  }

  lemma LeaveCore(s: State, i: nat, state: FiberState)
    requires Enabled(s, Leave(i, state)) && Sound(s)
    ensures CoreOf(Next(s, Leave(i, state)))
  {
    var l := Leave(i, state);
    var s', g := LeaveStep(s, i, state), s.workers[i].pc.fiber;
    forall f: nat ensures RightsOf(s')(f) <= RightsOf(s)(f) && QueuedOf(s')(f) >= QueuedOf(s)(f) {
      RightsMove(s, l, f);
      QueuedStays(s, l, f);
    }
    assert WorkerOk(s.fibers, s.workers[i], RightsOf(s));
    LeaveKeeps(s.fibers, s.workers, RightsOf(s), QueuedOf(s), s'.fibers, s'.workers, RightsOf(s'), QueuedOf(s'), i,
      s'.fibers[g]);
  }

  /** Only a READY fiber gets a right when it is booked, and it is then in the worker's hands. */
  lemma BackMade(s: State, i: nat)
    requires Enabled(s, Back(i)) && s.workers[i].pc.fiber < |s.fibers|
    ensures
      var g := s.workers[i].pc.fiber;
      && Claims(Made(s, Back(i)), g) == (if s.fibers[g].state == READY then 1 else 0)
      && (forall f: nat | f != g :: Claims(Made(s, Back(i)), f) == 0)
      && (s.fibers[g].state == READY ==> QueuedOf(BackStep(s, i))(g) > 0)
  {
    var g := s.workers[i].pc.fiber;
    if s.fibers[g].state == READY {
      HeldQueued(BackStep(s, i), i, FiberCont(g));
    }
  }

  lemma BackCore(s: State, i: nat)
    requires Enabled(s, Back(i)) && Sound(s)
    ensures CoreOf(Next(s, Back(i)))
  {
    var l, g := Back(i), s.workers[i].pc.fiber;
    var s' := BackStep(s, i);
    assert g < |s.fibers| by {
      assert WorkerOk(s.fibers, s.workers[i], RightsOf(s));
    }
    BackMade(s, i);
    Moves(s, l, g);
    RightsMove(s, l, g);
    BackShape(s, i);
    BackKeeps(s.fibers, s.workers, RightsOf(s), QueuedOf(s), s'.fibers, s'.workers, RightsOf(s'), QueuedOf(s'), i,
      s'.fibers[g], s'.workers[i]);
  }

  lemma HeldQueued(s: State, i: nat, k: Cont)
    requires i < |s.workers|
    ensures Claim(s.workers[i])[k] <= Work(s, k)
  {
    GatherSplit(s.workers, i, Claim);
  }

  lemma BackShape(s: State, i: nat)
    requires i < |s.workers| && s.workers[i].pc.Running? && s.workers[i].pc.fiber < |s.fibers|
    ensures
      var s', w, f := BackStep(s, i), s.workers[i], s.workers[i].pc.fiber;
      && |s'.fibers| == |s.fibers| && s'.fibers == s.fibers[f := s'.fibers[f]]
         && s'.workers == s.workers[i := s'.workers[i]]
      && s'.workers[i].idle == w.idle && (s'.workers[i].pc.Head? || s'.workers[i].pc.Requeue?)
      && (if s.fibers[f].state == READY then s'.fibers[f] == s.fibers[f]
          else if Finished(s.fibers, f) then s'.fibers[f] == if w.pc.own then Fiber(INIT, false) else s.fibers[f]
          else s'.fibers[f] == s.fibers[f].(state := HOLD))
      && s'.workers[i].cbFiber == if w.pc.own && !Finished(s.fibers, f) then None else w.cbFiber
  {
  }

  lemma SwapInCore(s: State, i: nat)
    requires Enabled(s, SwapIn(i)) && Sound(s) && !Overlaps(s, SwapIn(i))
    ensures CoreOf(Next(s, SwapIn(i)))
  {
    var k := s.workers[i].pc.task.cont;
    if k.FiberCont? {
      ResumeCore(s, i, k.fiber);
    } else {
      CallCore(s, i, k.cb);
    }
  }

  /** A task that is a fiber is never a finished one. */
  lemma HandIsLive(s: State, i: nat, g: FiberId)
    requires CoreOf(s) && i < |s.workers| && s.workers[i].pc.Hand? && s.workers[i].pc.task.cont == FiberCont(g)
    ensures RightsOf(s)(g) == 1 && g < |s.fibers| && !Finished(s.fibers, g) && s.fibers[g].hasBody
            && s.fibers[g].state != EXEC
  {
    HeldOnce(s, i, FiberCont(g));
    assert FiberOk(s.fibers, s.workers, RightsOf(s), QueuedOf(s), g);
    assert WorkerOk(s.fibers, s.workers[i], RightsOf(s));
  }

  lemma ResumeCore(s: State, i: nat, g: FiberId)
    requires Enabled(s, SwapIn(i)) && Sound(s) && !Overlaps(s, SwapIn(i)) && s.workers[i].pc.task.cont == FiberCont(g)
    ensures CoreOf(Next(s, SwapIn(i)))
  {
    HandIsLive(s, i, g);
    ResumeRights(s, i, g);
    ResumeFrom(s, SwapInStep(s, i), i, g);
  }

  lemma ResumeRights(s: State, i: nat, g: FiberId)
    requires Enabled(s, SwapIn(i)) && Sound(s) && s.workers[i].pc.task.cont == FiberCont(g)
    ensures
      var s' := SwapInStep(s, i);
      RightsOf(s')(g) == 0 && OthersKeep(g, RightsOf(s), RightsOf(s'), QueuedOf(s), QueuedOf(s'))
  {
    HandIsLive(s, i, g);
    Moves(s, SwapIn(i), g);
    RightsMove(s, SwapIn(i), g);
  }

  lemma ResumeFrom(s: State, s': State, i: nat, g: FiberId)
    requires CoreOf(s) && i < |s.workers| && s.workers[i].pc.Hand? && s.workers[i].pc.task.cont == FiberCont(g)
    requires RightsOf(s)(g) == 1 && RightsOf(s')(g) == 0 && g < |s.fibers|
             && s'.fibers == s.fibers[g := s.fibers[g].(state := EXEC)]
    requires OthersKeep(g, RightsOf(s), RightsOf(s'), QueuedOf(s), QueuedOf(s'))
    requires s'.workers == s.workers[i := s.workers[i].(pc := Running(g, false, false, None, false))]
    requires forall j | 0 <= j < |s.workers| :: !OnStack(s.workers[j], g)
    ensures CoreOf(s')
  {
    forall j | 0 <= j < |s.workers| && j != i
      ensures !(s.workers[j].pc.Hand? && s.workers[j].pc.task.cont == FiberCont(g))
    {
      HandIsAlone(s, i, j, g);
    }
    ResumeKeeps(s.fibers, s.workers, RightsOf(s), QueuedOf(s), s'.fibers, s'.workers, RightsOf(s'), QueuedOf(s'), i, g);
  }

  lemma CallShape(s: State, i: nat, cb: Callback)
    requires i < |s.workers| && s.workers[i].pc.Hand? && s.workers[i].pc.task.cont == CallCont(cb)
    requires s.workers[i].cbFiber.Some? ==> s.workers[i].cbFiber.value < |s.fibers|
    ensures
      var s', w := SwapInStep(s, i), s.workers[i];
      var c := if w.cbFiber.Some? then w.cbFiber.value else |s.fibers|;
      && s'.fibers == (if w.cbFiber.Some? && c < |s.fibers| then s.fibers[c := Fiber(EXEC, true)]
                       else s.fibers + [Fiber(EXEC, true)])
      && var owes := if cb.Wake? then Some(cb.fiber) else None;
         s'.workers == s.workers[i := w.(pc := Running(c, true, false, owes, false), cbFiber := Some(c))]
  {
  }

  lemma CallMoves(s: State, i: nat)
    requires Enabled(s, SwapIn(i)) && Sound(s) && s.workers[i].pc.task.cont.CallCont?
    ensures forall f: nat ::
              RightsOf(SwapInStep(s, i))(f) <= RightsOf(s)(f) && QueuedOf(SwapInStep(s, i))(f) >= QueuedOf(s)(f)
  {
    var s' := SwapInStep(s, i);
    forall f: nat ensures RightsOf(s')(f) <= RightsOf(s)(f) && QueuedOf(s')(f) >= QueuedOf(s)(f) {
      RightsMove(s, SwapIn(i), f);
      QueuedStays(s, SwapIn(i), f);
    }
  }

  lemma CallCore(s: State, i: nat, cb: Callback)
    requires Enabled(s, SwapIn(i)) && Sound(s) && s.workers[i].pc.task.cont == CallCont(cb)
    ensures CoreOf(Next(s, SwapIn(i)))
  {
    var s', w := SwapInStep(s, i), s.workers[i];
    var c := if w.cbFiber.Some? then w.cbFiber.value else |s.fibers|;
    assert WorkerOk(s.fibers, w, RightsOf(s)) && FiberOk(s.fibers, s.workers, RightsOf(s), QueuedOf(s), c);
    CallMoves(s, i);
    CallShape(s, i, cb);
    forall j | 0 <= j < |s.workers| && j != i
      ensures !(s.workers[j].pc.Hand? && s.workers[j].pc.task.cont == FiberCont(c))
    {
      NotInHand(s, j, c);
    }
    CallKeeps(s.fibers, s.workers, RightsOf(s), QueuedOf(s), s'.fibers, s'.workers, RightsOf(s'), QueuedOf(s'), i, c,
              if cb.Wake? then Some(cb.fiber) else None);
  }

  lemma CoreStays(s: State, l: Label)
    requires Enabled(s, l) && Sound(s) && !Overlaps(s, l)
    ensures CoreOf(Next(s, l))
  {
    match l
    case SwapIn(i) => SwapInCore(s, i);
    case Spawn(who, thread) => SpawnCore(s, who, thread);
    case Register(_, _, _, _) => ArmCore(s, l);
    case Sleep(_, _, _) => ArmCore(s, l);
    case Deliver(i) => DeliverCore(s, i);
    case Leave(i, state) => LeaveCore(s, i, state);
    case Back(i) => BackCore(s, i);
    case Submit(_, _, _) => ClientCore(s, l);
    case Operate(_, _) => ClientCore(s, l);
    case AddTimer(_, _, _, _, _) => ClientCore(s, l);
    case CancelTimer(_, _) => ClientCore(s, l);
    case Dispatch(_, _, _, _) => ClientCore(s, l);
    case Stop => ClientCore(s, l);
    case _ => LoopCore(s, l);
  }
}

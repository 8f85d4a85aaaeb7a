/** What is left when the workers have left `run`. */
module Shutdown {
  import opened Bags
  import opened Tasks
  import opened Scheduling
  import opened Runtime
  import opened RuntimeCore
  import opened RuntimeSafety
  import opened RuntimeRuns

  predicate ByWorker(who: Who) { who.Inside? }

  /** Work is submitted by the tasks of the workers only, and is never pinned to a thread. */
  predicate Closed(l: Label) {
    match l
    case Submit(who, _, thread) => ByWorker(who) && thread == ANY
    case Spawn(who, thread) => ByWorker(who) && thread == ANY
    case Operate(who, _) => ByWorker(who)
    case AddTimer(who, _, _, _, _) => ByWorker(who)
    case CancelTimer(who, _) => ByWorker(who)
    case _ => true
  }

  predicate ClosedRun(ls: seq<Label>) {
    forall l <- ls :: Closed(l)
  }

  /** The clock has moved past zero. */
  predicate Ticking(l: Label) {
    l.ReadTimers? ==> l.now > 0
  }

  predicate TickingRun(ls: seq<Label>) {
    forall l <- ls :: Ticking(l)
  }

  predicate Unpinned(q: seq<Task>) {
    forall i | 0 <= i < |q| :: q[i].thread == ANY
  }

  predicate Staffed(s: State) {
    exists i | 0 <= i < |s.workers| :: !s.workers[i].pc.Left?
  }

  predicate AllLeft(s: State) {
    forall i | 0 <= i < |s.workers| :: s.workers[i].pc.Left?
  }

  /** Queued work has somebody to do it. */
  predicate Attended(s: State) {
    Unpinned(s.queue) && (s.queue == [] || Staffed(s))
  }

  lemma UnpinnedStays(s: State, l: Label)
    requires Enabled(s, l) && Closed(l) && Unpinned(s.queue)
    ensures Unpinned(Next(s, l).queue)
  {
    if l.Operate? || l.Register? || l.Dispatch? {
    } else if l.Take? || l.SwapIn? || l.Back? {
    }
  }

  /** With everybody else gone, a worker that looks takes a task whenever one is queued. */
  lemma LastTake(s: State, i: nat)
    requires Enabled(s, Take(i)) && Sound(s) && Unpinned(s.queue)
    requires forall j | 0 <= j < |s.workers| && j != i :: s.workers[j].pc.Left?
    ensures s.queue != [] ==> TakeStep(s, i).workers[i].pc.Hand?
  {
    assert forall j | 0 <= j < |s.workers| :: !s.workers[j].pc.Running?;
    forall g | 0 <= g < |s.fibers| ensures s.fibers[g].state != EXEC {
      assert FiberOk(s.fibers, s.workers, RightsOf(s), QueuedOf(s), g);
    }
    if s.queue != [] {
      assert Eligible(s.queue[0], s.workers[i].thread, Exec(s.fibers));
    }
  }

  /** The worker that makes a step, where one does. */
  function Actor(l: Label): Option<nat> {
    match l
    case Submit(who, _, _) => if who.Inside? then Some(who.worker) else None
    case Spawn(who, _) => if who.Inside? then Some(who.worker) else None
    case Operate(who, _) => if who.Inside? then Some(who.worker) else None
    case AddTimer(who, _, _, _, _) => if who.Inside? then Some(who.worker) else None
    case CancelTimer(who, _) => if who.Inside? then Some(who.worker) else None
    case Stop => None
    case _ => Some(l.i)
  }

  /** Only a take lets a worker leave. */
  lemma ActorStays(s: State, l: Label)
    requires Enabled(s, l) && Actor(l).Some? && !l.Take?
    ensures Actor(l).value < |s.workers| && |Next(s, l).workers| == |s.workers|
    ensures !s.workers[Actor(l).value].pc.Left? && !Next(s, l).workers[Actor(l).value].pc.Left?
  {
    if l.Back? {
      assert !BackStep(s, l.i).workers[l.i].pc.Left?;
    } else if l.SwapIn? {
      assert !SwapInStep(s, l.i).workers[l.i].pc.Left?;
    }
  }

  lemma AttendedByTake(s: State, i: nat)
    requires Enabled(s, Take(i)) && Sound(s) && Unpinned(s.queue) && Unpinned(TakeStep(s, i).queue)
    ensures Attended(TakeStep(s, i))
  {
    var s' := TakeStep(s, i);
    if !s'.workers[i].pc.Left? {
      assert Staffed(s');
    } else if j :| 0 <= j < |s.workers| && j != i && !s.workers[j].pc.Left? {
      assert !s'.workers[j].pc.Left?;
    } else {
      LastTake(s, i);
    }
  }

  lemma AttendedStays(s: State, l: Label)
    requires Enabled(s, l) && Sound(s) && Closed(l) && Attended(s)
    ensures Attended(Next(s, l))
  {
    UnpinnedStays(s, l);
    if l.Take? {
      AttendedByTake(s, l.i);
    } else if l != Stop {
      ActorStays(s, l);
      assert !Next(s, l).workers[Actor(l).value].pc.Left?;
    }
  }

  lemma {:induction false} RunAttended(s: State, ls: seq<Label>)
    requires Sound(s) && Attended(s) && Runs(s, ls) && NeverOverlaps(s, ls) && ClosedRun(ls)
    ensures Sound(Final(s, ls)) && Attended(Final(s, ls))
    decreases |ls|
  {
    if ls != [] {
      assert Closed(ls[0]);
      AttendedStays(s, ls[0]);
      SoundStays(s, ls[0]);
      RunAttended(Next(s, ls[0]), ls[1..]);
    }
  }

  /** Once every worker of a closed run has left, no task is queued, none is counted, and no fiber is READY or EXEC. */
  lemma NothingStranded(s: State, ls: seq<Label>)
    requires Sound(s) && Attended(s) && Runs(s, ls) && NeverOverlaps(s, ls) && ClosedRun(ls)
    requires AllLeft(Final(s, ls))
    ensures
      var e := Final(s, ls);
      && e.queue == [] && e.active == 0 && e.idle == 0
      && forall f | 0 <= f < |e.fibers| :: e.fibers[f].state != READY && e.fibers[f].state != EXEC
  {
    RunAttended(s, ls);
    LeftIsDone(Final(s, ls));
  }

  lemma LeftIsDone(e: State)
    requires Sound(e) && Attended(e) && AllLeft(e)
    ensures e.queue == [] && e.active == 0 && e.idle == 0 && Gather(e.workers, Claim) == multiset{}
    ensures forall f | 0 <= f < |e.fibers| :: e.fibers[f].state != READY && e.fibers[f].state != EXEC
  {
    TotalNone(e.workers, Busy);
    TotalNone(e.workers, Idle);
    GatherNone(e.workers, Claim);
    forall f | 0 <= f < |e.fibers| ensures e.fibers[f].state != READY && e.fibers[f].state != EXEC {
      assert FiberOk(e.fibers, e.workers, RightsOf(e), QueuedOf(e), f);
      assert QueuedOf(e)(f) == 0;
    }
  }
}

/** A run that shows what is forgotten when a worker arms a timer after its idle fiber has ended. */
module ShutdownLimits {
  import opened Tasks
  import opened Timers
  import opened Scheduling
  import opened Runtime
  import opened RuntimeRuns
  import opened RuntimeLimits
  import opened Shutdown
  import opened Watching

  const SLEEPER := Entry(1001, 0, 1000, false, Wake(0))

  function W(thread: int, pc: Pc, idle: FiberState): Worker { Worker(thread, pc, idle, None) }

  function Gone(): Pc { Running(0, false, false, None, true) }

  function Two(state: FiberState, queue: seq<Task>, w0: Worker, w1: Worker,
               timers: seq<Entry<Callback>>, active: int, idle: int, stop: bool): State {
    State([Fiber(state, true)], queue, [w0, w1], E.Initial(), timers, |timers|, 0, active, idle, stop, stop)
  }

  const LENGTH := 26

  /**
    * A fiber yields to ready twice. Each time, between the decrement of the active count and the schedule call, the
    * other worker finds nothing left and ends its idle fiber. The fiber then goes to sleep.
    */
  function Move(k: nat): Label
    requires k < LENGTH
  {
    match k
    case 0 => Stop
    case 1 => Take(0)
    case 2 => SwapIn(0)
    case 3 => Leave(0, READY)
    case 4 => Back(0)
    case 5 => Take(1)
    case 6 => ReadTimers(1, 1)
    case 7 => ReadPending(1)
    case 8 => ReadQueue(1)
    case 9 => Again(0)
    case 10 => Take(1)
    case 11 => SwapIn(1)
    case 12 => Leave(1, READY)
    case 13 => Back(1)
    case 14 => Take(0)
    case 15 => ReadTimers(0, 1)
    case 16 => ReadPending(0)
    case 17 => ReadQueue(0)
    case 18 => Again(1)
    case 19 => Take(1)
    case 20 => SwapIn(1)
    case 21 => Sleep(1, 1000, 1)
    case 22 => Leave(1, HOLD)
    case 23 => Back(1)
    case 24 => Take(1)
    case _ => Take(0)
  }

  function Scene(k: nat): State
    requires k <= LENGTH
  {
    match k
    case 0 => Two(INIT, [F0], W(1, Head, INIT), W(2, Head, INIT), [], 0, 0, false)
    case 1 => Two(INIT, [F0], W(1, Head, INIT), W(2, Head, INIT), [], 0, 0, true)
    case 2 => Two(INIT, [], W(1, Hand(F0), INIT), W(2, Head, INIT), [], 1, 0, true)
    case 3 => Two(EXEC, [], W(1, Fresh(), INIT), W(2, Head, INIT), [], 1, 0, true)
    case 4 => Two(READY, [], W(1, Gone(), INIT), W(2, Head, INIT), [], 1, 0, true)
    case 5 => Two(READY, [], W(1, Requeue(0), INIT), W(2, Head, INIT), [], 0, 0, true)
    case 6 => Two(READY, [], W(1, Requeue(0), INIT), W(2, IdleTimers, EXEC), [], 0, 1, true)
    case 7 => Two(READY, [], W(1, Requeue(0), INIT), W(2, IdlePending, EXEC), [], 0, 1, true)
    case 8 => Two(READY, [], W(1, Requeue(0), INIT), W(2, IdleQueue, EXEC), [], 0, 1, true)
    case 9 => Two(READY, [], W(1, Requeue(0), INIT), W(2, Head, TERM), [], 0, 0, true)
    case 10 => Two(READY, [F0], W(1, Head, INIT), W(2, Head, TERM), [], 0, 0, true)
    case 11 => Two(READY, [], W(1, Head, INIT), W(2, Hand(F0), TERM), [], 1, 0, true)
    case 12 => Two(EXEC, [], W(1, Head, INIT), W(2, Fresh(), TERM), [], 1, 0, true)
    case 13 => Two(READY, [], W(1, Head, INIT), W(2, Gone(), TERM), [], 1, 0, true)
    case 14 => Two(READY, [], W(1, Head, INIT), W(2, Requeue(0), TERM), [], 0, 0, true)
    case 15 => Two(READY, [], W(1, IdleTimers, EXEC), W(2, Requeue(0), TERM), [], 0, 1, true)
    case 16 => Two(READY, [], W(1, IdlePending, EXEC), W(2, Requeue(0), TERM), [], 0, 1, true)
    case 17 => Two(READY, [], W(1, IdleQueue, EXEC), W(2, Requeue(0), TERM), [], 0, 1, true)
    case 18 => Two(READY, [], W(1, Head, TERM), W(2, Requeue(0), TERM), [], 0, 0, true)
    case 19 => Two(READY, [F0], W(1, Head, TERM), W(2, Head, TERM), [], 0, 0, true)
    case 20 => Two(READY, [], W(1, Head, TERM), W(2, Hand(F0), TERM), [], 1, 0, true)
    case 21 => Two(EXEC, [], W(1, Head, TERM), W(2, Fresh(), TERM), [], 1, 0, true)
    case 22 => Two(EXEC, [], W(1, Head, TERM), W(2, Armed(), TERM), [SLEEPER], 1, 0, true)
    case 23 => Two(HOLD, [], W(1, Head, TERM), W(2, Parked(), TERM), [SLEEPER], 1, 0, true)
    case 24 => Two(HOLD, [], W(1, Head, TERM), W(2, Head, TERM), [SLEEPER], 0, 0, true)
    case 25 => Two(HOLD, [], W(1, Head, TERM), W(2, Left, TERM), [SLEEPER], 0, 0, true)
    case _ => Two(HOLD, [], W(1, Left, TERM), W(2, Left, TERM), [SLEEPER], 0, 0, true)
  }

  predicate Follows(k: nat)
    requires k < LENGTH
  {
    Step(Scene(k), Move(k), Scene(k + 1))
  }

  lemma FirstTake()
    ensures Follows(0) && Follows(1)
  {
    assert RemoveAt([F0], 0) == [] && Scan([F0], 1, Exec(Scene(1).fibers)) == 0;
  }

  lemma FirstRun()
    ensures Follows(2)
  {
  }

  lemma FirstYield()
    ensures Follows(3) && Follows(4)
  {
  }

  lemma FirstLook()
    ensures Follows(5) && Follows(6)
  {
  }

  lemma FirstAsk()
    ensures Follows(7)
  {
  }

  lemma FirstStop()
    ensures Follows(8)
  {
  }

  lemma SecondQueue()
    ensures Follows(9)
  {
    assert [] + [F0] == [F0];
  }

  lemma SecondTake()
    ensures Follows(10)
  {
    assert RemoveAt([F0], 0) == [] && Scan([F0], 2, Exec(Scene(10).fibers)) == 0;
  }

  lemma SecondRun()
    ensures Follows(11)
  {
  }

  lemma SecondYield()
    ensures Follows(12) && Follows(13)
  {
  }

  lemma SecondLook()
    ensures Follows(14)
  {
  }

  lemma SecondRead()
    ensures Follows(15)
  {
  }

  lemma SecondAsk()
    ensures Follows(16)
  {
  }

  lemma SecondStop()
    ensures Follows(17)
  {
  }

  lemma LastQueue()
    ensures Follows(18)
  {
    assert [] + [F0] == [F0];
  }

  lemma LastTake()
    ensures Follows(19)
  {
    assert RemoveAt([F0], 0) == [] && Scan([F0], 2, Exec(Scene(19).fibers)) == 0;
  }

  lemma LastRun()
    ensures Follows(20)
  {
  }

  lemma Sleeps()
    ensures Follows(21) && Follows(22)
  {
  }

  lemma ComesBack()
    ensures Follows(23)
  {
  }

  lemma BothLeave()
    ensures Follows(24) && Follows(25)
  {
  }

  lemma AllFollow(k: nat)
    requires k < LENGTH
    ensures Follows(k)
  {
    if k < 2 {
      FirstTake();
    } else if k < 3 {
      FirstRun();
    } else if k < 5 {
      FirstYield();
    } else if k < 7 {
      FirstLook();
    } else if k < 8 {
      FirstAsk();
    } else if k < 9 {
      FirstStop();
    } else if k < 10 {
      SecondQueue();
    } else if k < 11 {
      SecondTake();
    } else if k < 12 {
      SecondRun();
    } else if k < 14 {
      SecondYield();
    } else if k < 15 {
      SecondLook();
    } else if k < 16 {
      SecondRead();
    } else if k < 17 {
      SecondAsk();
    } else if k < 18 {
      SecondStop();
    } else if k < 19 {
      LastQueue();
    } else if k < 20 {
      LastTake();
    } else if k < 21 {
      LastRun();
    } else if k < 23 {
      Sleeps();
    } else if k < 24 {
      ComesBack();
    } else {
      BothLeave();
    }
  }

  function LastSleep(): seq<Label> {
    seq(LENGTH, k requires 0 <= k < LENGTH => Move(k))
  }

  lemma {:induction false} Replay(ss: seq<State>, ls: seq<Label>)
    requires |ss| == |ls| + 1 && forall k | 0 <= k < |ls| :: Step(ss[k], ls[k], ss[k + 1])
    ensures Leads(ss[0], ls, ss[|ls|])
    decreases |ls|
  {
    if ls == [] {
      Stays(ss[0]);
    } else {
      forall k | 0 <= k < |ls| - 1 ensures Step(ss[1..][k], ls[1..][k], ss[1..][k + 1]) {
        assert Step(ss[k + 1], ls[k + 1], ss[k + 2]);
      }
      Replay(ss[1..], ls[1..]);
      Prepend(ss[0], ls[0], ss[1], ls, ss[|ls|]);
    }
  }

  lemma Stays(e: State)
    ensures Leads(e, [], e)
  {
  }

  lemma AllClosed(k: nat)
    requires k < LENGTH
    ensures Closed(Move(k)) && Ticking(Move(k))
  {
  }

  /** The guard that fails: both idle fibers have ended when the fiber arms its timer. */
  lemma SleepIsLate()
    ensures AllEnded(Scene(21)) && LateArm(Scene(21), Move(21)) && ArmsTimer(Move(21))
  {
  }

  lemma BothHaveLeft()
    ensures AllLeft(Scene(LENGTH)) && Scene(LENGTH).timers == [SLEEPER] && Scene(LENGTH).fibers == [Fiber(HOLD, true)]
  {
  }

  lemma StartsWithOneFiber()
    ensures Scene(0) == Next(Boot([1, 2]), Spawn(Outside, ANY))
  {
    assert Boot([1, 2]).workers == Scene(0).workers;
  }

  /** A closed run of two workers in which both leave, and a sleeping fiber is left with its timer still armed. */
  lemma SleeperLeftBehind()
    ensures Scene(0) == Next(Boot([1, 2]), Spawn(Outside, ANY))
    ensures ClosedRun(LastSleep()) && TickingRun(LastSleep())
    ensures Leads(Scene(0), LastSleep(), Scene(LENGTH))
    ensures AllLeft(Scene(LENGTH)) && Scene(LENGTH).timers == [SLEEPER] && Scene(LENGTH).fibers == [Fiber(HOLD, true)]
    ensures AllEnded(Scene(21)) && LateArm(Scene(21), Move(21))
  {
    SleepIsLate();
    StartsWithOneFiber();
    BothHaveLeft();
    forall k: nat | k < LENGTH ensures Closed(Move(k)) && Ticking(Move(k)) {
      AllClosed(k);
    }
    var ss := seq(LENGTH + 1, k requires 0 <= k <= LENGTH => Scene(k));
    forall k: nat | k < LENGTH ensures Step(ss[k], LastSleep()[k], ss[k + 1]) {
      AllFollow(k);
    }
    Replay(ss, LastSleep());
  }
}

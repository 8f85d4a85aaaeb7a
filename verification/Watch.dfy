/** Which workers still watch the timers and the events, and so what is forgotten when all have left. */
module Watching {
  import opened Bags
  import opened Tasks
  import opened Timers
  import opened Runtime
  import opened RuntimeCore
  import opened RuntimeSafety
  import opened RuntimeRuns
  import opened Shutdown

  /** The worker has not ended its idle fiber, nor seen in its present round of questions that nothing pends. */
  predicate WatchesEvents(w: Worker) {
    w.idle != TERM && !w.pc.Left? && !w.pc.IdleQueue?
  }

  /** The same for the timers, about which the loop asks first. */
  predicate WatchesTimers(w: Worker) {
    WatchesEvents(w) && !w.pc.IdlePending?
  }

  predicate TimersWatched(s: State) {
    exists i | 0 <= i < |s.workers| :: WatchesTimers(s.workers[i])
  }

  predicate EventsWatched(s: State) {
    exists i | 0 <= i < |s.workers| :: WatchesEvents(s.workers[i])
  }

  predicate NeverTimersWatched(s: State, ls: seq<Label>)
    requires Runs(s, ls)
    decreases |ls|
  {
    !TimersWatched(s) && (ls != [] ==> NeverTimersWatched(Next(s, ls[0]), ls[1..]))
  }

  predicate NeverEventsWatched(s: State, ls: seq<Label>)
    requires Runs(s, ls)
    decreases |ls|
  {
    !EventsWatched(s) && (ls != [] ==> NeverEventsWatched(Next(s, ls[0]), ls[1..]))
  }

  predicate ArmsTimer(l: Label) {
    l.Sleep? || l.AddTimer?
  }

  /** The step registers an event, successfully. */
  predicate ArmsEvent(s: State, l: Label)
    requires Enabled(s, l)
  {
    (l.Register? || (l.Operate? && l.op.OpAdd?)) && Next(s, l).table.pending > s.table.pending
  }

  /** Some step of the run arms a timer that no worker watches from then on. */
  predicate StrandsTimer(s: State, ls: seq<Label>)
    requires Runs(s, ls)
    decreases |ls|
  {
    ls != [] &&
    ((ArmsTimer(ls[0]) && NeverTimersWatched(Next(s, ls[0]), ls[1..])) || StrandsTimer(Next(s, ls[0]), ls[1..]))
  }

  /** Some step of the run registers an event that no worker watches from then on. */
  predicate StrandsEvent(s: State, ls: seq<Label>)
    requires Runs(s, ls)
    decreases |ls|
  {
    ls != [] &&
    ((ArmsEvent(s, ls[0]) && NeverEventsWatched(Next(s, ls[0]), ls[1..])) || StrandsEvent(Next(s, ls[0]), ls[1..]))
  }

  /** A client takes a timer or an event back. */
  predicate TakesBack(l: Label) {
    l.CancelTimer? || (l.Operate? && !l.op.OpAdd?)
  }

  predicate NoneTakenBack(ls: seq<Label>) {
    forall l <- ls :: !TakesBack(l)
  }

  lemma FirstAndRest(ls: seq<Label>)
    requires ls != []
    ensures TickingRun(ls) <==> Ticking(ls[0]) && TickingRun(ls[1..])
    ensures NoneTakenBack(ls) <==> !TakesBack(ls[0]) && NoneTakenBack(ls[1..])
  {
    assert ls == [ls[0]] + ls[1..];
  }

  // ----- Timers -----

  /** The set stays empty unless a timer is armed or handed out. */
  lemma TimersOtherwise(s: State, l: Label)
    requires Enabled(s, l) && !ArmsTimer(l) && !l.Fire?
    ensures |Next(s, l).timers| <= |s.timers|
    ensures !l.CancelTimer? ==> Next(s, l).timers == s.timers
  {
  }

  lemma TimersArmed(s: State, l: Label)
    requires Enabled(s, l) && ArmsTimer(l)
    ensures Next(s, l).timers != []
  {
  }

  /** A worker that hands out the expired timers watches them, before and after. */
  lemma FireIsWatched(s: State, l: Label)
    requires Enabled(s, l) && l.Fire? && s.workers[l.i].idle == EXEC
    ensures TimersWatched(s) && TimersWatched(Next(s, l))
  {
    assert WatchesTimers(s.workers[l.i]) && WatchesTimers(Next(s, l).workers[l.i]);
  }

  /** The last watch of the timers ends only by seeing that there are none. */
  lemma TimerWatchEnds(s: State, l: Label)
    requires Enabled(s, l) && Ticking(l) && TimersWatched(s) && !TimersWatched(Next(s, l))
    ensures l.ReadTimers? && s.timers == [] && Next(s, l).timers == []
  {
    var j :| 0 <= j < |s.workers| && WatchesTimers(s.workers[j]);
    if Mover(l) == Some(j) {
      WatcherMoves(s, l);
    } else {
      OthersWatch(s, l, j);
    }
    if l.ReadTimers? {
      NoneMeansEmpty(s.timers, l.now);
    }
  }

  /** A worker that does not move goes on watching. */
  lemma OthersWatch(s: State, l: Label, j: nat)
    requires Enabled(s, l) && j < |s.workers| && Mover(l) != Some(j)
    ensures WatchesTimers(s.workers[j]) ==> TimersWatched(Next(s, l))
    ensures WatchesEvents(s.workers[j]) ==> EventsWatched(Next(s, l))
  {
    OthersSame(s, l, j);
    var w := Next(s, l).workers[j];
    assert w == s.workers[j];
  }

  lemma OthersSame(s: State, l: Label, j: nat)
    requires Enabled(s, l) && j < |s.workers| && Mover(l) != Some(j)
    ensures |Next(s, l).workers| == |s.workers| && Next(s, l).workers[j] == s.workers[j]
  {
    if Mover(l).Some? {
      MoverMoves(s, l);
    }
  }

  /** What a watching worker does when it moves. */
  lemma WatcherMoves(s: State, l: Label)
    requires Enabled(s, l) && Mover(l).Some? && Mover(l).value < |s.workers| && WatchesEvents(s.workers[Mover(l).value])
    ensures
      var i, s' := Mover(l).value, Next(s, l);
      && i < |s'.workers|
      && (WatchesTimers(s.workers[i]) && !WatchesTimers(s'.workers[i]) ==>
            l.ReadTimers? && NextTimeout(s.timers, l.now) == NONE64 && s'.timers == s.timers)
      && (!WatchesEvents(s'.workers[i]) ==> l.ReadPending? && s.table.pending == 0 && s'.table == s.table)
  {
    MoverMoves(s, l);
    var w := s.workers[Mover(l).value];
    if l.Take? {
      TakeWatches(s, l.i);
    } else if l.SwapIn? {
      SwapInWatches(s, l.i);
    } else if l.Back? {
      BackWatches(s, l.i);
    }
  }

  lemma TakeWatches(s: State, i: nat)
    requires Enabled(s, Take(i)) && s.workers[i].idle != TERM
    ensures WatchesTimers(TakeStep(s, i).workers[i])
  {
  }

  lemma SwapInWatches(s: State, i: nat)
    requires Enabled(s, SwapIn(i)) && s.workers[i].idle != TERM
    ensures WatchesTimers(SwapInStep(s, i).workers[i])
  {
  }

  lemma BackWatches(s: State, i: nat)
    requires Enabled(s, Back(i)) && s.workers[i].idle != TERM
    ensures WatchesTimers(BackStep(s, i).workers[i])
  {
  }

  /** What one step does to the timers, when nobody watches them afterwards. */
  lemma TimerStepLeft(s: State, l: Label)
    requires Enabled(s, l) && Sound(s) && Ticking(l) && !TimersWatched(Next(s, l))
    ensures |Next(s, l).timers| > 0 ==> ArmsTimer(l) || (|s.timers| > 0 && !TimersWatched(s))
    ensures !TakesBack(l) && (ArmsTimer(l) || (|s.timers| > 0 && !TimersWatched(s))) ==> |Next(s, l).timers| > 0
  {
    if ArmsTimer(l) {
      TimersArmed(s, l);
    } else if l.Fire? {
      assert WorkerOk(s.fibers, s.workers[l.i], RightsOf(s));
      FireIsWatched(s, l);
    } else {
      TimersOtherwise(s, l);
      if TimersWatched(s) {
        TimerWatchEnds(s, l);
      }
    }
  }

  /**
    * Timers that nobody watches at the end: one is left only if some step armed one that nobody watched from then on;
    * and where no client takes a timer back, exactly then.
    */
  lemma {:induction false} TimersLeftIff(s: State, ls: seq<Label>)
    requires Sound(s) && Runs(s, ls) && NeverOverlaps(s, ls) && TickingRun(ls) && !TimersWatched(Final(s, ls))
    ensures |Final(s, ls).timers| > 0 ==> StrandsTimer(s, ls) || (|s.timers| > 0 && NeverTimersWatched(s, ls))
    ensures NoneTakenBack(ls) && (StrandsTimer(s, ls) || (|s.timers| > 0 && NeverTimersWatched(s, ls))) ==>
            |Final(s, ls).timers| > 0
    decreases |ls|
  {
    if ls != [] {
      var l, s' := ls[0], Next(s, ls[0]);
      FirstAndRest(ls);
      SoundStays(s, l);
      TimersLeftIff(s', ls[1..]);
      if !TimersWatched(s') {
        TimerStepLeft(s, l);
      }
    }
  }

  // ----- Events -----

  /** The counter only grows where an event is registered, and changes otherwise by dispatch and by being taken back. */
  lemma PendingOtherwise(s: State, l: Label)
    requires Enabled(s, l) && !ArmsEvent(s, l) && !l.Dispatch?
    ensures Next(s, l).table.pending <= s.table.pending
    ensures !TakesBack(l) ==> Next(s, l).table.pending == s.table.pending
  {
  }

  lemma DispatchIsWatched(s: State, l: Label)
    requires Enabled(s, l) && l.Dispatch? && s.workers[l.i].idle == EXEC
    ensures EventsWatched(s) && EventsWatched(Next(s, l))
  {
    assert WatchesEvents(s.workers[l.i]) && Next(s, l).workers == s.workers;
  }

  /** The last watch of the events ends only by seeing that none pends. */
  lemma EventWatchEnds(s: State, l: Label)
    requires Enabled(s, l) && EventsWatched(s) && !EventsWatched(Next(s, l))
    ensures l.ReadPending? && s.table.pending == 0 && Next(s, l).table.pending == 0
  {
    var j :| 0 <= j < |s.workers| && WatchesEvents(s.workers[j]);
    if Mover(l) == Some(j) {
      WatcherMoves(s, l);
    } else {
      OthersWatch(s, l, j);
    }
  }

  lemma EventStepLeft(s: State, l: Label)
    requires Enabled(s, l) && Sound(s) && E.Inv(Next(s, l).table) && !EventsWatched(Next(s, l))
    ensures Next(s, l).table.pending > 0 ==> ArmsEvent(s, l) || (s.table.pending > 0 && !EventsWatched(s))
    ensures !TakesBack(l) && (ArmsEvent(s, l) || (s.table.pending > 0 && !EventsWatched(s))) ==>
            Next(s, l).table.pending > 0
  {
    if l.Dispatch? {
      assert WorkerOk(s.fibers, s.workers[l.i], RightsOf(s));
      DispatchIsWatched(s, l);
    } else if !ArmsEvent(s, l) {
      PendingOtherwise(s, l);
      if EventsWatched(s) {
        EventWatchEnds(s, l);
      }
    }
  }

  /** The same for events. */
  lemma {:induction false} EventsLeftIff(s: State, ls: seq<Label>)
    requires Sound(s) && Runs(s, ls) && NeverOverlaps(s, ls) && !EventsWatched(Final(s, ls))
    ensures Final(s, ls).table.pending > 0 ==> StrandsEvent(s, ls) || (s.table.pending > 0 && NeverEventsWatched(s, ls))
    ensures NoneTakenBack(ls) && (StrandsEvent(s, ls) || (s.table.pending > 0 && NeverEventsWatched(s, ls)))
            ==> Final(s, ls).table.pending > 0
    decreases |ls|
  {
    if ls != [] {
      var l, s' := ls[0], Next(s, ls[0]);
      FirstAndRest(ls);
      SoundStays(s, l);
      EventsLeftIff(s', ls[1..]);
      if !EventsWatched(s') {
        EventStepLeft(s, l);
      }
    }
  }

  // ----- Nobody forgotten -----

  lemma NoEventsNoSlots(t: E.Table)
    requires E.Inv(t) && t.pending == 0
    ensures E.Slots(t) == multiset{}
  {
    TotalZero(t.fds, E.BitCount);
    forall i | 0 <= i < |t.fds| ensures E.Stored(t.fds[i]) == multiset{} {
      assert E.BitCount(t.fds[i]) == 0 && E.Consistent(t.fds[i]);
    }
    GatherNone(t.fds, E.Stored);
  }

  /** A pending event holds a continuation. */
  lemma EventsHoldSomething(t: E.Table) returns (k: Cont)
    requires E.Inv(t) && t.pending > 0
    ensures E.Slots(t)[k] > 0
  {
    if forall i | 0 <= i < |t.fds| :: E.BitCount(t.fds[i]) == 0 {
      TotalNone(t.fds, E.BitCount);
    }
    var i :| 0 <= i < |t.fds| && E.BitCount(t.fds[i]) != 0;
    var v := t.fds[i];
    assert E.Consistent(v);
    var ctx := if v.events.read then v.read else v.write;
    k := if ctx.cb.Some? then CallCont(ctx.cb.value) else FiberCont(ctx.fiber.value);
    assert E.Held(ctx)[k] > 0;
    GatherSplit(t.fds, i, E.Stored);
  }

  /** With all workers gone, continuations remain exactly as timers and events. */
  lemma NothingInFlightIff(e: State)
    requires Sound(e) && Attended(e) && AllLeft(e)
    ensures (forall k :: InFlight(e, k) == 0) <==> e.timers == [] && e.table.pending == 0
  {
    LeftIsDone(e);
    assert Gather(e.queue, TaskConts) == multiset{};
    if e.timers == [] && e.table.pending == 0 {
      NoEventsNoSlots(e.table);
    } else if e.timers != [] {
      GatherSplit(e.timers, 0, TimerConts);
      assert InFlight(e, CallCont(e.timers[0].cb)) > 0;
    } else {
      assert e.table.pending >= 0;
      var k := EventsHoldSomething(e.table);
      assert InFlight(e, k) > 0;
    }
  }

  /** What is armed is watched. */
  predicate Guarded(s: State) {
    (s.timers == [] || TimersWatched(s)) && (s.table.pending == 0 || EventsWatched(s))
  }

  lemma BootGuarded(threads: seq<int>)
    ensures Guarded(Boot(threads)) && Attended(Boot(threads))
  {
  }

  lemma LeftWatchesNothing(e: State)
    requires AllLeft(e)
    ensures !TimersWatched(e) && !EventsWatched(e)
  {
  }

  /**
    * Any number of workers: when all have left a closed run, no wake-up of any kind is left behind unless some step
    * armed a timer or an event that no worker watched from then on; and where no client takes one back, exactly then.
    */
  lemma ForgottenIff(s: State, ls: seq<Label>)
    requires Sound(s) && Attended(s) && Guarded(s) && Runs(s, ls) && NeverOverlaps(s, ls)
    requires ClosedRun(ls) && TickingRun(ls) && AllLeft(Final(s, ls))
    ensures !StrandsTimer(s, ls) && !StrandsEvent(s, ls) ==> forall k :: InFlight(Final(s, ls), k) == 0
    ensures NoneTakenBack(ls) ==>
      ((forall k :: InFlight(Final(s, ls), k) == 0) <==> !StrandsTimer(s, ls) && !StrandsEvent(s, ls))
  {
    var e := Final(s, ls);
    RunAttended(s, ls);
    LeftWatchesNothing(e);
    TimersLeftIff(s, ls);
    EventsLeftIff(s, ls);
    NothingInFlightIff(e);
    assert e.table.pending >= 0 && s.table.pending >= 0;
  }

  /** So from the start of a pool, whatever its size: nothing is forgotten exactly when nothing is stranded. */
  lemma PoolForgottenIff(threads: seq<int>, ls: seq<Label>)
    requires Runs(Boot(threads), ls) && NeverOverlaps(Boot(threads), ls)
    requires ClosedRun(ls) && TickingRun(ls) && NoneTakenBack(ls) && AllLeft(Final(Boot(threads), ls))
    ensures (forall k :: InFlight(Final(Boot(threads), ls), k) == 0) <==>
            !StrandsTimer(Boot(threads), ls) && !StrandsEvent(Boot(threads), ls)
  {
    BootSound(threads);
    BootGuarded(threads);
    ForgottenIff(Boot(threads), ls);
  }

  // ----- The guard: arming after the end of the idle fiber -----

  /** The worker whose fiber makes the step, where it arms a timer or an event. */
  function Armer(l: Label): Option<nat> {
    match l
    case Register(i, _, _, _) => Some(i)
    case Sleep(i, _, _) => Some(i)
    case AddTimer(who, _, _, _, _) => if who.Inside? then Some(who.worker) else None
    case Operate(who, op) => if who.Inside? && op.OpAdd? then Some(who.worker) else None
    case _ => None
  }

  /** A worker whose idle fiber has ended arms a timer or an event. */
  predicate LateArm(s: State, l: Label) {
    Armer(l).Some? && Armer(l).value < |s.workers| && s.workers[Armer(l).value].idle == TERM
  }

  predicate NeverLateArms(s: State, ls: seq<Label>)
    requires Runs(s, ls)
    decreases |ls|
  {
    ls != [] ==> !LateArm(s, ls[0]) && NeverLateArms(Next(s, ls[0]), ls[1..])
  }

  /** A worker that arms in time watches what it has armed. */
  lemma ArmerWatches(s: State, l: Label)
    requires Enabled(s, l) && Closed(l) && !LateArm(s, l) && (ArmsTimer(l) || ArmsEvent(s, l))
    ensures TimersWatched(Next(s, l)) && EventsWatched(Next(s, l))
  {
    var i := Armer(l).value;
    var w := Next(s, l).workers[i];
    assert w.pc.Running? && w.idle == s.workers[i].idle;
    assert WatchesTimers(Next(s, l).workers[i]);
  }

  lemma {:induction false} InTimeStrandsNothing(s: State, ls: seq<Label>)
    requires Runs(s, ls) && ClosedRun(ls) && NeverLateArms(s, ls)
    ensures !StrandsTimer(s, ls) && !StrandsEvent(s, ls)
    decreases |ls|
  {
    if ls != [] {
      var l := ls[0];
      assert Closed(l);
      InTimeStrandsNothing(Next(s, l), ls[1..]);
      if ArmsTimer(l) || ArmsEvent(s, l) {
        ArmerWatches(s, l);
      }
    }
  }

  /** Any number of workers leave no timer, event or continuation behind, if none arms once its idle fiber has ended. */
  lemma ForgetsNobody(s: State, ls: seq<Label>)
    requires Sound(s) && Attended(s) && Guarded(s) && Runs(s, ls) && NeverOverlaps(s, ls)
    requires ClosedRun(ls) && TickingRun(ls) && NeverLateArms(s, ls) && AllLeft(Final(s, ls))
    ensures
      var e := Final(s, ls);
      e.timers == [] && e.table.pending == 0 && forall k :: InFlight(e, k) == 0
  {
    InTimeStrandsNothing(s, ls);
    ForgottenIff(s, ls);
    RunAttended(s, ls);
    NothingInFlightIff(Final(s, ls));
  }

  predicate AllEnded(s: State) {
    forall i | 0 <= i < |s.workers| :: s.workers[i].idle == TERM
  }

  /** An idle fiber that has ended stays so. */
  lemma EndedStays(s: State, l: Label)
    requires Enabled(s, l) && Sound(s) && AllEnded(s)
    ensures AllEnded(Next(s, l))
  {
    if Mover(l).Some? {
      MoverMoves(s, l);
      assert WorkerOk(s.fibers, s.workers[Mover(l).value], RightsOf(s));
      EndedMoves(s, l);
    }
  }

  lemma EndedMoves(s: State, l: Label)
    requires Enabled(s, l) && Mover(l).Some? && Mover(l).value < |Next(s, l).workers| == |s.workers|
    requires s.workers[Mover(l).value].idle == TERM && !Idling(s.workers[Mover(l).value])
    ensures Next(s, l).workers[Mover(l).value].idle == TERM
  {
    if l.Back? {
      assert BackStep(s, l.i).workers[l.i].idle == TERM;
    } else if l.SwapIn? {
      assert SwapInStep(s, l.i).workers[l.i].idle == TERM;
    } else if l.Take? {
      assert TakeStep(s, l.i).workers[l.i].idle == TERM;
    }
  }

  lemma {:induction false} EndedNeverWatch(s: State, ls: seq<Label>)
    requires Sound(s) && Runs(s, ls) && NeverOverlaps(s, ls) && AllEnded(s)
    ensures NeverTimersWatched(s, ls) && NeverEventsWatched(s, ls) && AllEnded(Final(s, ls))
    decreases |ls|
  {
    if ls != [] {
      SoundStays(s, ls[0]);
      EndedStays(s, ls[0]);
      EndedNeverWatch(Next(s, ls[0]), ls[1..]);
    }
  }

  /** Once every idle fiber has ended, a timer or an event that is armed and not taken back stays for good. */
  lemma LateArmStays(s: State, ls: seq<Label>)
    requires Sound(s) && Runs(s, ls) && NeverOverlaps(s, ls) && TickingRun(ls) && NoneTakenBack(ls)
    requires AllEnded(s) && ls != []
    ensures ArmsTimer(ls[0]) ==> Final(s, ls).timers != []
    ensures ArmsEvent(s, ls[0]) ==> Final(s, ls).table.pending > 0
  {
    EndedNeverWatch(s, ls);
    TimersLeftIff(s, ls);
    EventsLeftIff(s, ls);
  }

  // ----- One worker -----

  /** The only worker has nothing left to run once its idle fiber has ended. */
  predicate Quits(s: State) {
    && |s.workers| == 1
    && (s.workers[0].idle == TERM ==> s.queue == [] && (s.workers[0].pc.Head? || s.workers[0].pc.Left?))
  }

  lemma QuitsByTake(s: State, i: nat)
    requires Enabled(s, Take(i)) && Quits(s)
    ensures Quits(TakeStep(s, i))
  {
  }

  lemma QuitsBySwapIn(s: State, i: nat)
    requires Enabled(s, SwapIn(i)) && Quits(s)
    ensures Quits(SwapInStep(s, i))
  {
  }

  lemma QuitsByBack(s: State, i: nat)
    requires Enabled(s, Back(i)) && Quits(s)
    ensures Quits(BackStep(s, i))
  {
  }

  lemma QuitsStays(s: State, l: Label)
    requires Enabled(s, l) && Quits(s) && Closed(l)
    ensures Quits(Next(s, l))
  {
    if l.Take? {
      QuitsByTake(s, l.i);
    } else if l.SwapIn? {
      QuitsBySwapIn(s, l.i);
    } else if l.Back? {
      QuitsByBack(s, l.i);
    } else if Mover(l).None? && l != Stop {
      assert s.workers[0].idle != TERM && Next(s, l).workers == s.workers;
    }
  }

  /** One worker has one stack, and arms nothing late. */
  lemma {:induction false} OneWorkerIsInTime(s: State, ls: seq<Label>)
    requires Quits(s) && Runs(s, ls) && ClosedRun(ls)
    ensures NeverOverlaps(s, ls) && NeverLateArms(s, ls)
    decreases |ls|
  {
    if ls != [] {
      assert Closed(ls[0]);
      QuitsStays(s, ls[0]);
      OneWorkerIsInTime(Next(s, ls[0]), ls[1..]);
    }
  }

  /** So the only worker of a closed run leaves no timer, no event and no wake-up of any kind behind. */
  lemma OneWorkerForgetsNobody(s: State, ls: seq<Label>)
    requires Sound(s) && Attended(s) && Guarded(s) && Quits(s) && Runs(s, ls)
    requires ClosedRun(ls) && TickingRun(ls) && AllLeft(Final(s, ls))
    ensures
      var e := Final(s, ls);
      e.timers == [] && e.table.pending == 0 && forall k :: InFlight(e, k) == 0
  {
    OneWorkerIsInTime(s, ls);
    ForgetsNobody(s, ls);
  }
}

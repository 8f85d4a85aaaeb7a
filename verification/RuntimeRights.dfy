/** The conservation of wake-up rights: what a step makes, moves and uses up. */
module RuntimeRights {
  import opened Bags
  import opened Tasks
  import opened Timers
  import opened Scheduling
  import opened Runtime

  // ----- Bags of the parts -----

  lemma {:induction false} HandedBag(conts: seq<Cont>)
    ensures Gather(AsTasks(conts), TaskConts) == multiset(conts)
  {
    if conts != [] {
      var last := |conts| - 1;
      HandedBag(conts[..last]);
      assert AsTasks(conts)[..last] == AsTasks(conts[..last]);
      assert conts == conts[..last] + [conts[last]];
    }
  }

  lemma {:induction false} CallsBag(cbs: seq<Callback>)
    ensures Gather(Calls(cbs), TaskConts) == Gather(cbs, CallConts)
  {
    if cbs != [] {
      var last := |cbs| - 1;
      CallsBag(cbs[..last]);
      assert Calls(cbs)[..last] == Calls(cbs[..last]);
    }
  }

  lemma {:induction false} CallbacksBag(ts: seq<Entry<Callback>>)
    ensures Gather(Callbacks(ts), CallConts) == Gather(ts, TimerConts)
  {
    if ts != [] {
      var last := |ts| - 1;
      CallbacksBag(ts[..last]);
      assert Callbacks(ts)[..last] == Callbacks(ts[..last]);
    }
  }

  lemma Cons<T, A>(x: T, rest: seq<T>, g: T -> multiset<A>)
    ensures Gather([x] + rest, g) == g(x) + Gather(rest, g)
  {
    GatherConcat([x], rest, g);
    GatherAppend([], x, g);
    assert [] + [x] == [x];
  }

  lemma {:induction false} InsertBag(ts: seq<Entry<Callback>>, e: Entry<Callback>, k: Cont)
    ensures Gather(Insert(ts, e), TimerConts)[k] == Gather(ts, TimerConts)[k] + TimerConts(e)[k]
  {
    if ts == [] || Before(e, ts[0]) {
      Cons(e, ts, TimerConts);
    } else {
      InsertBag(ts[1..], e, k);
      Cons(ts[0], Insert(ts[1..], e), TimerConts);
      Cons(ts[0], ts[1..], TimerConts);
      assert [ts[0]] + ts[1..] == ts;
    }
  }

  lemma {:induction false} RearmBag(expired: seq<Entry<Callback>>, rest: seq<Entry<Callback>>, now: uint64, k: Cont)
    ensures Gather(Rearm(expired, rest, now), TimerConts)[k] ==
            Gather(rest, TimerConts)[k] + Gather(expired, RecurringConts)[k]
    decreases |expired|
  {
    if expired != [] {
      var e := expired[0];
      assert expired == [e] + expired[1..];
      Cons(e, expired[1..], RecurringConts);
      if e.recurring {
        InsertBag(rest, Rearmed(e, now), k);
        RearmBag(expired[1..], Insert(rest, Rearmed(e, now)), now, k);
      } else {
        RearmBag(expired[1..], rest, now, k);
      }
    }
  }

  lemma One(t: Task)
    ensures Gather([t], TaskConts) == TaskConts(t)
  {
    Cons(t, [], TaskConts);
    assert [t] + [] == [t];
  }

  // ----- One step -----

  /** What remains to be shown of a step that changes one worker and adds to the queue. */
  lemma Tally(s: State, s': State, i: nat, added: seq<Task>, k: Cont, made: nat, used: nat)
    requires i < |s.workers| && |s'.workers| == |s.workers|
    requires s'.workers == s.workers[i := s'.workers[i]] && s'.queue == s.queue + added
    requires
      Claim(s'.workers[i])[k] + Gather(added, TaskConts)[k]
      + E.Slots(s'.table)[k] + Gather(s'.timers, TimerConts)[k] + used
      == Claim(s.workers[i])[k] + E.Slots(s.table)[k] + Gather(s.timers, TimerConts)[k] + made
    ensures InFlight(s', k) + used == InFlight(s, k) + made
  {
    ConcatAt(s.queue, added, TaskConts, k);
    UpdateAt(s.workers, i, s'.workers[i], Claim, k);
  }

  /** The same for a step that changes no worker. */
  lemma TallyQueue(s: State, s': State, added: seq<Task>, k: Cont, made: nat, used: nat)
    requires s'.workers == s.workers && s'.queue == s.queue + added
    requires
      Gather(added, TaskConts)[k] + E.Slots(s'.table)[k] + Gather(s'.timers, TimerConts)[k] + used
      == E.Slots(s.table)[k] + Gather(s.timers, TimerConts)[k] + made
    ensures InFlight(s', k) + used == InFlight(s, k) + made
  {
    ConcatAt(s.queue, added, TaskConts, k);
  }

  /** A taken task only moves from the queue to the worker. */
  lemma TakeMoves(s: State, i: nat, k: Cont)
    requires Enabled(s, Take(i))
    ensures Work(TakeStep(s, i), k) == Work(s, k) && InFlight(TakeStep(s, i), k) == InFlight(s, k)
  {
    var w := s.workers[i];
    var n := Scan(s.queue, w.thread, Exec(s.fibers));
    if n < |s.queue| {
      MoveToHand(s, TakeStep(s, i), i, n, k);
    } else {
      NothingTaken(s, TakeStep(s, i), i, k);
    }
  }

  lemma MoveToHand(s: State, s': State, i: nat, n: nat, k: Cont)
    requires i < |s.workers| && s.workers[i].pc == Head && n < |s.queue|
    requires s'.workers == s.workers[i := s.workers[i].(pc := Hand(s.queue[n]))] && s'.queue == RemoveAt(s.queue, n)
    requires s'.table == s.table && s'.timers == s.timers
    ensures Work(s', k) == Work(s, k) && InFlight(s', k) == InFlight(s, k)
  {
    UpdateAt(s.workers, i, s'.workers[i], Claim, k);
    WithoutAt(s.queue, n, TaskConts, k);
    assert Claim(s.workers[i]) == multiset{} && Claim(s'.workers[i]) == TaskConts(s.queue[n]);
  }

  lemma NothingTaken(s: State, s': State, i: nat, k: Cont)
    requires i < |s.workers| && s.workers[i].pc == Head && |s'.workers| == |s.workers|
    requires s'.workers == s.workers[i := s'.workers[i]] && (s'.workers[i].pc.Left? || s'.workers[i].pc.IdleTimers?)
    requires s'.queue == s.queue && s'.table == s.table && s'.timers == s.timers
    ensures Work(s', k) == Work(s, k) && InFlight(s', k) == InFlight(s, k)
  {
    UpdateAt(s.workers, i, s'.workers[i], Claim, k);
    assert Claim(s.workers[i]) == multiset{} && Claim(s'.workers[i]) == multiset{};
  }

  lemma TableMoves(t: E.Table, op: E.Op, k: Cont)
    requires E.Inv(t) && !E.Aborts(t, op)
    ensures
      var f := E.Apply(t, op);
      E.Slots(f.table)[k] + Gather(AsTasks(f.handed), TaskConts)[k] + f.dropped[k] == E.Slots(t)[k] + f.stored[k]
  {
    var f := E.Apply(t, op);
    E.ApplyKeeps(t, op);
    HandedBag(f.handed);
    assert (E.Slots(f.table) + (multiset(f.handed) + f.dropped))[k] == (E.Slots(t) + f.stored)[k];
  }

  lemma TableConserves(s: State, op: E.Op, k: Cont)
    requires E.Inv(s.table) && !E.Aborts(s.table, op)
    ensures
      var f := E.Apply(s.table, op);
      InFlight(TableStep(s, op), k) + f.dropped[k] == InFlight(s, k) + f.stored[k]
  {
    var f, s' := E.Apply(s.table, op), TableStep(s, op);
    var more := AsTasks(f.handed);
    assert s'.table == f.table && s'.queue == s.queue + more && s'.workers == s.workers && s'.timers == s.timers;
    TableMoves(s.table, op, k);
    TallyQueue(s, s', more, k, f.stored[k], f.dropped[k]);
  }

  lemma OperateConserves(s: State, l: Label, k: Cont)
    requires Enabled(s, l) && E.Inv(s.table) && (l.Operate? || l.Dispatch?)
    ensures InFlight(Next(s, l), k) + Used(s, l)[k] == InFlight(s, k) + Made(s, l)[k]
  {
    if l.Operate? {
      TableConserves(s, l.op, k);
    } else {
      TableConserves(s, E.OpDispatch(l.fd, l.flags, l.willing), k);
    }
  }

  lemma RegisterFrom(s: State, s': State, i: nat, op: E.Op, k: Cont)
    requires E.Inv(s.table) && !E.Aborts(s.table, op) && i < |s.workers| && |s'.workers| == |s.workers|
    requires
      var f := E.Apply(s.table, op);
      && s'.table == f.table && s'.timers == s.timers && s'.queue == s.queue + AsTasks(f.handed)
      && f.dropped == multiset{}
      && s'.workers == s.workers[i := s'.workers[i]] && Claim(s'.workers[i]) == Claim(s.workers[i])
    ensures InFlight(s', k) == InFlight(s, k) + E.Apply(s.table, op).stored[k]
  {
    TableMoves(s.table, op, k);
    Tally(s, s', i, AsTasks(E.Apply(s.table, op).handed), k, E.Apply(s.table, op).stored[k], 0);
  }

  lemma RegisterConserves(s: State, l: Label, k: Cont)
    requires Enabled(s, l) && E.Inv(s.table) && l.Register?
    ensures InFlight(Next(s, l), k) + Used(s, l)[k] == InFlight(s, k) + Made(s, l)[k]
  {
    var op := E.OpAdd(l.fd, l.event, FiberCont(s.workers[l.i].pc.fiber), l.willing);
    RegisterFrom(s, Next(s, l), l.i, op, k);
  }

  lemma SleepConserves(s: State, l: Label, k: Cont)
    requires Enabled(s, l) && l.Sleep?
    ensures InFlight(Next(s, l), k) == InFlight(s, k) + Made(s, l)[k]
  {
    var e := Entry(Add64(l.now, l.ms), s.nextAddr, l.ms, false, Wake(s.workers[l.i].pc.fiber));
    InsertBag(s.timers, e, k);
    Tally(s, Next(s, l), l.i, [], k, TimerConts(e)[k], 0);
  }

  lemma AddTimerConserves(s: State, l: Label, k: Cont)
    requires Enabled(s, l) && l.AddTimer?
    ensures InFlight(Next(s, l), k) == InFlight(s, k) + Made(s, l)[k]
  {
    var e := Entry(Add64(l.now, l.ms), s.nextAddr, l.ms, l.recurring, l.cb);
    InsertBag(s.timers, e, k);
    TallyQueue(s, Next(s, l), [], k, TimerConts(e)[k], 0);
  }

  lemma CancelTimerConserves(s: State, l: Label, k: Cont)
    requires Enabled(s, l) && l.CancelTimer?
    ensures InFlight(Next(s, l), k) + Used(s, l)[k] == InFlight(s, k)
  {
    WithoutAt(s.timers, l.k, TimerConts, k);
    TallyQueue(s, Next(s, l), [], k, 0, TimerConts(s.timers[l.k])[k]);
  }

  lemma FireTimers(ts: seq<Entry<Callback>>, n: nat, now: uint64, k: Cont)
    requires n <= |ts|
    ensures
      Gather(Rearm(ts[..n], ts[n..], now), TimerConts)[k] + Gather(ts[..n], TimerConts)[k]
      == Gather(ts, TimerConts)[k] + Gather(ts[..n], RecurringConts)[k]
  {
    assert ts == ts[..n] + ts[n..];
    ConcatAt(ts[..n], ts[n..], TimerConts, k);
    RearmBag(ts[..n], ts[n..], now, k);
  }

  lemma FireShape(s: State, i: nat, now: uint64)
    requires i < |s.workers| && s.workers[i].pc == IdleWait
    ensures
      var s', n := FireStep(s, i, now), ExpireCount(s.timers, now, s.previous);
      && |s'.workers| == |s.workers| && s'.workers == s.workers[i := s'.workers[i]] && s'.queue == s.queue
         && s'.table == s.table
      && s'.timers == Rearm(s.timers[..n], s.timers[n..], now)
      && Claim(s.workers[i]) == multiset{} && Claim(s'.workers[i]) == Gather(s.timers[..n], TimerConts)
  {
    var s', n := FireStep(s, i, now), ExpireCount(s.timers, now, s.previous);
    assert s'.workers[i].pc == IdleSubmit(Callbacks(s.timers[..n]));
    CallbacksBag(s.timers[..n]);
  }

  lemma FireConserves(s: State, i: nat, now: uint64, k: Cont)
    requires Enabled(s, Fire(i, now))
    ensures InFlight(FireStep(s, i, now), k) == InFlight(s, k) + Made(s, Fire(i, now))[k]
  {
    var n := ExpireCount(s.timers, now, s.previous);
    FireShape(s, i, now);
    FireTimers(s.timers, n, now, k);
    FireTally(s, FireStep(s, i, now), i, k, Gather(s.timers[..n], RecurringConts)[k]);
  }

  lemma FireTally(s: State, s': State, i: nat, k: Cont, made: nat)
    requires i < |s.workers| && |s'.workers| == |s.workers|
    requires s'.workers == s.workers[i := s'.workers[i]] && s'.queue == s.queue && s'.table == s.table
    requires Claim(s'.workers[i])[k] + Gather(s'.timers, TimerConts)[k] ==
             Claim(s.workers[i])[k] + Gather(s.timers, TimerConts)[k] + made
    ensures InFlight(s', k) == InFlight(s, k) + made
  {
    assert s'.queue == s.queue + [];
    Tally(s, s', i, [], k, made, 0);
  }

  lemma SubmitConserves(s: State, l: Label, k: Cont)
    requires Enabled(s, l) && (l.Submit? || l.Spawn?)
    ensures InFlight(Next(s, l), k) == InFlight(s, k) + Made(s, l)[k]
  {
    var t := Task(if l.Submit? then CallCont(User(l.id)) else FiberCont(|s.fibers|), l.thread);
    var s' := Next(s, l);
    assert s'.workers == s.workers && s'.queue == s.queue + [t] && s'.table == s.table && s'.timers == s.timers;
    One(t);
    TallyQueue(s, s', [t], k, TaskConts(t)[k], 0);
  }

  lemma DeliverConserves(s: State, l: Label, k: Cont)
    requires Enabled(s, l) && l.Deliver?
    ensures InFlight(Next(s, l), k) + Used(s, l)[k] == InFlight(s, k) + Made(s, l)[k]
  {
    var t := Task(FiberCont(s.workers[l.i].pc.owes.value), ANY);
    One(t);
    Tally(s, Next(s, l), l.i, [t], k, TaskConts(t)[k], Used(s, l)[k]);
  }

  lemma AgainConserves(s: State, l: Label, k: Cont)
    requires Enabled(s, l) && l.Again?
    ensures InFlight(Next(s, l), k) == InFlight(s, k)
  {
    var t := Task(FiberCont(s.workers[l.i].pc.again), ANY);
    One(t);
    Tally(s, Next(s, l), l.i, [t], k, 0, 0);
  }

  lemma SubmitFiredFrom(s: State, s': State, i: nat, more: seq<Task>, k: Cont)
    requires i < |s.workers| && Claim(s.workers[i])[k] == Gather(more, TaskConts)[k]
    requires s'.workers == s.workers[i := s.workers[i].(pc := IdleDispatch)] && s'.queue == s.queue + more
    requires s'.table == s.table && s'.timers == s.timers
    ensures InFlight(s', k) == InFlight(s, k)
  {
    assert Claim(s'.workers[i]) == multiset{};
    Tally(s, s', i, more, k, 0, 0);
  }

  /** The callbacks in hand count as the tasks they become. */
  lemma FiredClaim(w: Worker, k: Cont)
    requires w.pc.IdleSubmit?
    ensures Claim(w)[k] == Gather(Calls(w.pc.fired), TaskConts)[k]
  {
    CallsBag(w.pc.fired);
  }

  lemma SubmitFiredConserves(s: State, i: nat, k: Cont)
    requires Enabled(s, SubmitFired(i))
    ensures InFlight(Next(s, SubmitFired(i)), k) == InFlight(s, k)
  {
    FiredClaim(s.workers[i], k);
    SubmitFiredFrom(s, Next(s, SubmitFired(i)), i, Calls(s.workers[i].pc.fired), k);
  }

  lemma SwapInMovesNothingElse(s: State, i: nat)
    requires i < |s.workers| && s.workers[i].pc.Hand?
    ensures
      var s' := SwapInStep(s, i);
      && s'.workers == s.workers[i := s'.workers[i]] && s'.queue == s.queue && s'.table == s.table
         && s'.timers == s.timers
  {
  }

  /** A task that is run leaves the worker's hands, but for a wake-up that its callback still has to deliver. */
  lemma SwapInClaim(s: State, i: nat)
    requires Enabled(s, SwapIn(i))
    ensures Claim(SwapInStep(s, i).workers[i]) + Used(s, SwapIn(i)) == Claim(s.workers[i])
  {
  }

  /** The other steps of the worker loop move nothing, but that a fiber to run again is in hand. */
  lemma LoopClaim(s: State, l: Label)
    requires Enabled(s, l) && (l.Leave? || l.Back? || l.ReadTimers? || l.ReadPending? || l.ReadQueue? || l.IdleOut?)
    ensures
      var s' := Next(s, l);
      && s'.workers == s.workers[l.i := s'.workers[l.i]] && s'.queue == s.queue && s'.table == s.table
         && s'.timers == s.timers
      && Claim(s.workers[l.i]) == multiset{} && Claim(s'.workers[l.i]) == Made(s, l) && Used(s, l) == multiset{}
  {
    if l.Back? {
      BackClaim(s, l.i);
    }
  }

  lemma BackClaim(s: State, i: nat)
    requires Enabled(s, Back(i))
    ensures
      var s' := BackStep(s, i);
      && s'.workers == s.workers[i := s'.workers[i]] && s'.queue == s.queue && s'.table == s.table
         && s'.timers == s.timers
      && Claim(s'.workers[i]) == Made(s, Back(i))
  {
  }

  lemma SwapInConserves(s: State, l: Label, k: Cont)
    requires Enabled(s, l) && l.SwapIn?
    ensures InFlight(Next(s, l), k) + Used(s, l)[k] == InFlight(s, k)
  {
    var s' := Next(s, l);
    SwapInMovesNothingElse(s, l.i);
    SwapInClaim(s, l.i);
    assert s'.queue == s.queue + [];
    assert Claim(s.workers[l.i])[k] == Claim(s'.workers[l.i])[k] + Used(s, l)[k];
    Tally(s, s', l.i, [], k, 0, Used(s, l)[k]);
  }

  lemma LoopConserves(s: State, l: Label, k: Cont)
    requires Enabled(s, l) && (l.Leave? || l.Back? || l.ReadTimers? || l.ReadPending? || l.ReadQueue? || l.IdleOut?)
    ensures InFlight(Next(s, l), k) == InFlight(s, k) + Made(s, l)[k]
  {
    var s' := Next(s, l);
    LoopClaim(s, l);
    assert s'.queue == s.queue + [];
    Tally(s, s', l.i, [], k, Made(s, l)[k], 0);
  }

  /** What a step makes is there afterwards, what it uses up is gone, and nothing else is lost or made. */
  lemma StepConserves(s: State, l: Label, k: Cont)
    requires Enabled(s, l) && E.Inv(s.table)
    ensures InFlight(Next(s, l), k) + Used(s, l)[k] == InFlight(s, k) + Made(s, l)[k]
  {
    match l
    case Take(i) => TakeMoves(s, i, k);
    case SwapIn(_) => SwapInConserves(s, l, k);
    case Submit(_, _, _) => SubmitConserves(s, l, k);
    case Spawn(_, _) => SubmitConserves(s, l, k);
    case Operate(_, _) => OperateConserves(s, l, k);
    case Dispatch(_, _, _, _) => OperateConserves(s, l, k);
    case Register(_, _, _, _) => RegisterConserves(s, l, k);
    case Sleep(_, _, _) => SleepConserves(s, l, k);
    case AddTimer(_, _, _, _, _) => AddTimerConserves(s, l, k);
    case CancelTimer(_, _) => CancelTimerConserves(s, l, k);
    case Deliver(_) => DeliverConserves(s, l, k);
    case Again(_) => AgainConserves(s, l, k);
    case Fire(i, now) => FireConserves(s, i, now, k);
    case SubmitFired(i) => SubmitFiredConserves(s, i, k);
    case Stop =>
    case _ => LoopConserves(s, l, k);
  }
}

/** A run that shows why a yield and its bookkeeping have to be one step. */
module RuntimeLimits {
  import opened Tasks
  import opened Scheduling
  import opened Runtime
  import opened RuntimeRuns

  predicate Step(s: State, l: Label, s': State) {
    Enabled(s, l) && Next(s, l) == s'
  }

  /** The run `ls` leads from one state to another. */
  predicate Leads(s: State, ls: seq<Label>, e: State) {
    Runs(s, ls) && Final(s, ls) == e
  }

  lemma Prepend(s: State, l: Label, s': State, ls: seq<Label>, e: State)
    requires Step(s, l, s') && ls != [] && ls[0] == l && Leads(s', ls[1..], e)
    ensures Leads(s, ls, e)
  {
  }

  /**
    * Worker 0 runs a fiber that registers for READ and yields. The state is HOLD, the switch is not booked yet. Then
    * the event is cancelled, the fiber is queued, and worker 1 takes it and swaps it in.
    */
  function TwoStacks(): seq<Label> {
    [Spawn(Outside, ANY), Take(0), SwapIn(0), Register(0, 3, READ, true), Leave(0, HOLD),
     Operate(Outside, E.OpCancel(3, READ, true)), Take(1), SwapIn(1)]
  }

  /** The pool of that run: fiber 0, one queue, two workers. */
  function Pool(state: FiberState, queue: seq<Task>, pc0: Pc, pc1: Pc, table: E.Table, active: int): State {
    State([Fiber(state, true)], queue, [Worker(1, pc0, INIT, None), Worker(2, pc1, INIT, None)],
          table, [], 0, 0, active, 0, false, false)
  }

  const F0 := Task(FiberCont(0), ANY)

  function Registered(): E.Table {
    E.Apply(E.Initial(), E.OpAdd(3, READ, FiberCont(0), true)).table
  }

  function Cancelled(): E.Table {
    E.Apply(Registered(), E.OpCancel(3, READ, true)).table
  }

  lemma Starts()
    ensures
      var t := E.Initial();
      && Step(Boot([1, 2]), Spawn(Outside, ANY), Pool(INIT, [F0], Head, Head, t, 0))
      && Step(Pool(INIT, [F0], Head, Head, t, 0), Take(0), Pool(INIT, [], Hand(F0), Head, t, 1))
      && Step(Pool(INIT, [], Hand(F0), Head, t, 1), SwapIn(0), Pool(EXEC, [], Fresh(), Head, t, 1))
  {
    var s := Pool(INIT, [F0], Head, Head, E.Initial(), 0);
    assert Boot([1, 2]).workers == s.workers;
    assert 0 !in Exec(s.fibers);
    assert RemoveAt([F0], 0) == [];
  }

  function Fresh(): Pc { Running(0, false, false, None, false) }

  function Armed(): Pc { Running(0, false, true, None, false) }

  function Parked(): Pc { Running(0, false, true, None, true) }

  lemma Registers()
    ensures
        && Step(Pool(EXEC, [], Fresh(), Head, E.Initial(), 1), Register(0, 3, READ, true),
           Pool(EXEC, [], Armed(), Head, Registered(), 1))
      && Step(Pool(EXEC, [], Armed(), Head, Registered(), 1), Leave(0, HOLD),
         Pool(HOLD, [], Parked(), Head, Registered(), 1))
  {
    var f := E.Apply(E.Initial(), E.OpAdd(3, READ, FiberCont(0), true));
    assert f.ok && f.handed == [];
    assert [] + AsTasks(f.handed) == [];
  }

  lemma Cancels()
    ensures |Cancelled().fds| >= 32
    ensures Step(Pool(HOLD, [], Parked(), Head, Registered(), 1), Operate(Outside, E.OpCancel(3, READ, true)),
                 Pool(HOLD, [F0], Parked(), Head, Cancelled(), 1))
  {
    assert Registered().fds[3] == E.FdView(E.Mask(true, false), E.Filled(FiberCont(0)), E.EMPTY);
    assert 3 in Registered().kernel;
    var f := E.Apply(Registered(), E.OpCancel(3, READ, true));
    assert f.handed == [FiberCont(0)];
    assert [] + AsTasks(f.handed) == [F0];
  }

  lemma TakesAgain()
    ensures Step(Pool(HOLD, [F0], Parked(), Head, Cancelled(), 1), Take(1),
            Pool(HOLD, [], Parked(), Hand(F0), Cancelled(), 2))
    ensures Step(Pool(HOLD, [], Parked(), Hand(F0), Cancelled(), 2), SwapIn(1),
            Pool(EXEC, [], Parked(), Fresh(), Cancelled(), 2))
  {
    Cancels();
    var s := Pool(HOLD, [F0], Parked(), Head, Cancelled(), 1);
    assert 0 !in Exec(s.fibers);
    assert RemoveAt([F0], 0) == [];
  }

  /** A run in which two workers run the same fiber. */
  lemma ParkedFiberRunsTwice()
    ensures Runs(Boot([1, 2]), TwoStacks()) && !Alone(Final(Boot([1, 2]), TwoStacks()))
  {
    var ls, t := TwoStacks(), E.Initial();
    var last := Pool(EXEC, [], Parked(), Fresh(), Cancelled(), 2);
    assert Leads(last, ls[8..], last);
    TakesAgain();
    Prepend(Pool(HOLD, [], Parked(), Hand(F0), Cancelled(), 2), SwapIn(1), last, ls[7..], last);
    Prepend(Pool(HOLD, [F0], Parked(), Head, Cancelled(), 1), Take(1),
      Pool(HOLD, [], Parked(), Hand(F0), Cancelled(), 2), ls[6..], last);
    Cancels();
    Prepend(Pool(HOLD, [], Parked(), Head, Registered(), 1), ls[5], Pool(HOLD, [F0], Parked(), Head, Cancelled(), 1),
      ls[5..], last);
    Registers();
    Prepend(Pool(EXEC, [], Armed(), Head, Registered(), 1), ls[4], Pool(HOLD, [], Parked(), Head, Registered(), 1),
      ls[4..], last);
    Prepend(Pool(EXEC, [], Fresh(), Head, t, 1), ls[3], Pool(EXEC, [], Armed(), Head, Registered(), 1), ls[3..], last);
    Starts();
    Prepend(Pool(INIT, [], Hand(F0), Head, t, 1), SwapIn(0), Pool(EXEC, [], Fresh(), Head, t, 1), ls[2..], last);
    Prepend(Pool(INIT, [F0], Head, Head, t, 0), Take(0), Pool(INIT, [], Hand(F0), Head, t, 1), ls[1..], last);
    Prepend(Boot([1, 2]), ls[0], Pool(INIT, [F0], Head, Head, t, 0), ls, last);
    assert last.workers[0].pc.fiber == last.workers[1].pc.fiber;
  }
}

/** What every run of the runtime keeps, as long as no fiber is swapped in while it is still on a stack. */
module RuntimeCore {
  import opened Tasks
  import opened Runtime

  /** Numbers given to fibers. */
  type Count = FiberId -> nat

  predicate Hosts(w: Worker, f: FiberId, parked: bool) {
    w.pc.Running? && w.pc.fiber == f && w.pc.parked == parked
  }

  predicate OnStack(w: Worker, f: FiberId) {
    w.pc.Running? && w.pc.fiber == f
  }

  predicate Idling(w: Worker) {
    w.pc.IdleTimers? || w.pc.IdlePending? || w.pc.IdleQueue? || w.pc.IdleWait? || w.pc.IdleSubmit? || w.pc.IdleDispatch?
  }

  /** The fiber on a stack: executing, or parked with the state it left in; without rights unless it is armed. */
  ghost predicate StackOk(fibers: seq<Fiber>, pc: Pc, r: Count)
    requires pc.Running?
  {
    var f := pc.fiber;
    && f < |fibers|
    && (if pc.parked then fibers[f].state in {HOLD, READY, TERM, EXCEPT} && (fibers[f].state == HOLD || !pc.armed)
        else fibers[f].state == EXEC)
    && (fibers[f].state in {EXEC, HOLD, READY} ==> fibers[f].hasBody)
    && (!pc.armed ==> r(f) == 0)
  }

  /** The callback fiber of a worker that does not run it: ready for reuse, and wanted by nobody. */
  ghost predicate Spare(fibers: seq<Fiber>, c: FiberId, r: Count) {
    c < |fibers| && fibers[c] == Fiber(INIT, false) && r(c) == 0
  }

  ghost predicate WorkerOk(fibers: seq<Fiber>, w: Worker, r: Count) {
    && (w.pc.Hand? && w.pc.task.cont.FiberCont? ==> StateOf(fibers, w.pc.task.cont.fiber) != EXEC)
    && (w.pc.Running? ==> StackOk(fibers, w.pc, r))
    && (w.pc.Running? && w.pc.own ==> w.cbFiber == Some(w.pc.fiber))
    && (w.cbFiber.Some? && !(w.pc.Running? && w.pc.own) ==> Spare(fibers, w.cbFiber.value, r))
    && (w.idle == EXEC <==> Idling(w)) && w.idle in {INIT, EXEC, HOLD, TERM}
  }

  /** Two workers have no fiber in common, on their stacks or as callback fibers. */
  predicate PairOk(v: Worker, w: Worker) {
    && (v.pc.Running? && w.pc.Running? ==> v.pc.fiber != w.pc.fiber)
    && (v.cbFiber.Some? ==> w.cbFiber != v.cbFiber && !OnStack(w, v.cbFiber.value))
  }

  /** At most one right, and only if it can go on; an executing fiber is on a stack, a READY one is about to run. */
  ghost predicate FiberOk(fibers: seq<Fiber>, workers: seq<Worker>, r: Count, q: Count, f: FiberId) {
    && r(f) <= 1
    && (r(f) > 0 ==> f < |fibers| && fibers[f].hasBody && !Finished(fibers, f))
    && (f < |fibers| && fibers[f].state == EXEC ==> exists i | 0 <= i < |workers| :: Hosts(workers[i], f, false))
    && (f < |fibers| && fibers[f].state == READY ==>
       q(f) > 0 || exists i | 0 <= i < |workers| :: Hosts(workers[i], f, true))
  }

  ghost predicate Core(fibers: seq<Fiber>, workers: seq<Worker>, r: Count, q: Count) {
    && (forall i | 0 <= i < |workers| :: WorkerOk(fibers, workers[i], r))
    && (forall i, j | 0 <= i < |workers| && 0 <= j < |workers| && i != j :: PairOk(workers[i], workers[j]))
    && (forall f: nat :: FiberOk(fibers, workers, r, q, f))
  }

  /** Only fiber `g` changes, perhaps by being new; nobody else gets a right or leaves the queue. */
  ghost predicate OnlyFiber(fibers: seq<Fiber>, fibers': seq<Fiber>, g: FiberId,
                             r: Count, r': Count, q: Count, q': Count) {
    && |fibers| <= |fibers'|
    && (forall f: nat | f != g :: f < |fibers'| ==> f < |fibers| && fibers'[f] == fibers[f])
    && (forall f: nat | f != g :: r'(f) <= r(f) && q'(f) >= q(f))
  }

  /** Another worker has nothing to do with fiber `g`. */
  predicate Apart(w: Worker, g: FiberId, state: FiberState) {
    && !OnStack(w, g) && w.cbFiber != Some(g)
    && (w.pc.Hand? && w.pc.task.cont == FiberCont(g) ==> state != EXEC)
  }

  lemma WorkerStays(fibers: seq<Fiber>, fibers': seq<Fiber>, w: Worker, g: FiberId,
                    r: Count, r': Count, q: Count, q': Count)
    requires WorkerOk(fibers, w, r) && OnlyFiber(fibers, fibers', g, r, r', q, q') && Apart(w, g, StateOf(fibers', g))
    ensures WorkerOk(fibers', w, r')
  {
  }

  /** A step that changes at most one worker and one fiber keeps the invariant if it does so there. */
  lemma Local(fibers: seq<Fiber>, workers: seq<Worker>, r: Count, q: Count,
              fibers': seq<Fiber>, workers': seq<Worker>, r': Count, q': Count, i: nat, g: FiberId)
    requires Core(fibers, workers, r, q)
    requires |workers'| == |workers| && forall j | 0 <= j < |workers| && j != i :: workers'[j] == workers[j]
    requires OnlyFiber(fibers, fibers', g, r, r', q, q')
    requires forall j | 0 <= j < |workers| && j != i :: Apart(workers[j], g, StateOf(fibers', g))
    requires i < |workers| ==> WorkerOk(fibers', workers'[i], r')
    requires i < |workers| ==> forall j | 0 <= j < |workers| && j != i ::
             PairOk(workers'[i], workers[j]) && PairOk(workers[j], workers'[i])
    requires i < |workers| ==>
             forall f: nat, parked | f != g && Hosts(workers[i], f, parked) :: Hosts(workers'[i], f, parked)
    requires FiberOk(fibers', workers', r', q', g)
    ensures Core(fibers', workers', r', q')
  {
    forall j | 0 <= j < |workers| && j != i ensures WorkerOk(fibers', workers'[j], r') {
      WorkerStays(fibers, fibers', workers[j], g, r, r', q, q');
    }
    forall f: nat ensures FiberOk(fibers', workers', r', q', f) {
      if f != g {
        FiberStays(fibers, workers, r, q, fibers', workers', r', q', i, g, f);
      }
    }
  }

  lemma FiberStays(fibers: seq<Fiber>, workers: seq<Worker>, r: Count, q: Count,
                   fibers': seq<Fiber>, workers': seq<Worker>, r': Count, q': Count, i: nat, g: FiberId, f: FiberId)
    requires FiberOk(fibers, workers, r, q, f) && f != g
    requires |workers'| == |workers| && forall j | 0 <= j < |workers| && j != i :: workers'[j] == workers[j]
    requires OnlyFiber(fibers, fibers', g, r, r', q, q')
    requires i < |workers| ==> forall parked | Hosts(workers[i], f, parked) :: Hosts(workers'[i], f, parked)
    ensures FiberOk(fibers', workers', r', q', f)
  {
    if f < |fibers'| && fibers'[f].state == EXEC {
      var j :| 0 <= j < |workers| && Hosts(workers[j], f, false);
      assert Hosts(workers'[j], f, false);
    }
    if f < |fibers'| && fibers'[f].state == READY && q(f) == 0 {
      var j :| 0 <= j < |workers| && Hosts(workers[j], f, true);
      assert Hosts(workers'[j], f, true);
    }
  }

  /** The same, where no fiber changes. */
  lemma LocalWorker(fibers: seq<Fiber>, workers: seq<Worker>, r: Count, q: Count,
                    workers': seq<Worker>, r': Count, q': Count, i: nat)
    requires Core(fibers, workers, r, q)
    requires |workers'| == |workers| && forall j | 0 <= j < |workers| && j != i :: workers'[j] == workers[j]
    requires forall f: nat :: r'(f) <= r(f) && q'(f) >= q(f)
    requires i < |workers| ==> WorkerOk(fibers, workers'[i], r')
    requires i < |workers| ==> workers'[i].cbFiber == workers[i].cbFiber
    requires i < |workers| ==> forall f: nat, parked :: Hosts(workers'[i], f, parked) <==> Hosts(workers[i], f, parked)
    ensures Core(fibers, workers', r', q')
  {
    var g := |fibers|;
    forall j | 0 <= j < |workers| ensures Apart(workers[j], g, StateOf(fibers, g)) {
      assert WorkerOk(fibers, workers[j], r);
    }
    assert FiberOk(fibers, workers, r, q, g);
    if i < |workers| {
      forall j | 0 <= j < |workers| && j != i
        ensures PairOk(workers'[i], workers[j]) && PairOk(workers[j], workers'[i])
      {
        SamePair(workers[i], workers'[i], workers[j]);
      }
    }
    Local(fibers, workers, r, q, fibers, workers', r', q', i, g);
  }

  lemma SamePair(v: Worker, v': Worker, w: Worker)
    requires PairOk(v, w) && PairOk(w, v) && v'.cbFiber == v.cbFiber
    requires forall f: nat, parked :: Hosts(v', f, parked) <==> Hosts(v, f, parked)
    ensures PairOk(v', w) && PairOk(w, v')
  {
    if v'.pc.Running? {
      assert Hosts(v', v'.pc.fiber, v'.pc.parked);
    }
  }

  // ----- The steps that change a fiber -----

  ghost predicate OthersKeep(g: FiberId, r: Count, r': Count, q: Count, q': Count) {
    forall f: nat | f != g :: r'(f) <= r(f) && q'(f) >= q(f)
  }

  /**
    * The fiber on the stack of worker `i` is on no other stack, is no callback fiber of another, and in nobody's
    * hands while it executes.
    */
  lemma Own(fibers: seq<Fiber>, workers: seq<Worker>, r: Count, q: Count, i: nat, j: nat)
    requires Core(fibers, workers, r, q) && i < |workers| && j < |workers| && i != j && workers[i].pc.Running?
    ensures !OnStack(workers[j], workers[i].pc.fiber) && workers[j].cbFiber != Some(workers[i].pc.fiber)
  {
    assert PairOk(workers[i], workers[j]) && PairOk(workers[j], workers[i]);
  }

  /** A running fiber leaves one wake-up behind, or fails to. */
  lemma ArmKeeps(fibers: seq<Fiber>, workers: seq<Worker>, r: Count, q: Count,
                 workers': seq<Worker>, r': Count, q': Count, i: nat, armed: bool)
    requires Core(fibers, workers, r, q) && i < |workers| && workers[i].pc.Running? && !workers[i].pc.parked
    requires workers' == workers[i := workers[i].(pc := workers[i].pc.(armed := armed))]
    requires r'(workers[i].pc.fiber) <= if armed then 1 else 0
    requires OthersKeep(workers[i].pc.fiber, r, r', q, q')
    ensures Core(fibers, workers', r', q')
  {
    var g := workers[i].pc.fiber;
    assert WorkerOk(fibers, workers[i], r);
    assert Hosts(workers'[i], g, false);
    forall j | 0 <= j < |workers| && j != i
      ensures Apart(workers[j], g, StateOf(fibers, g)) && PairOk(workers'[i], workers[j])
              && PairOk(workers[j], workers'[i])
    {
      Own(fibers, workers, r, q, i, j);
      assert WorkerOk(fibers, workers[j], r) && PairOk(workers[i], workers[j]) && PairOk(workers[j], workers[i]);
    }
    Local(fibers, workers, r, q, fibers, workers', r', q', i, g);
  }

  /** A running fiber writes the state it leaves in. */
  lemma LeaveKeeps(fibers: seq<Fiber>, workers: seq<Worker>, r: Count, q: Count,
                   fibers': seq<Fiber>, workers': seq<Worker>, r': Count, q': Count, i: nat, x: Fiber)
    requires Core(fibers, workers, r, q) && i < |workers| && workers[i].pc.Running? && !workers[i].pc.parked
    requires var f := workers[i].pc.fiber;
      && x.state in {HOLD, READY, TERM, EXCEPT} && (x.state == HOLD || !workers[i].pc.armed)
      && (x.state != TERM && f < |fibers| ==> x.hasBody == fibers[f].hasBody)
      && f < |fibers| && fibers' == fibers[f := x]
    requires workers' == workers[i := workers[i].(pc := workers[i].pc.(parked := true))]
    requires forall f: nat :: r'(f) <= r(f) && q'(f) >= q(f)
    ensures Core(fibers', workers', r', q')
  {
    var g := workers[i].pc.fiber;
    assert WorkerOk(fibers, workers[i], r) && FiberOk(fibers, workers, r, q, g);
    assert Hosts(workers'[i], g, true);
    forall j | 0 <= j < |workers| && j != i
      ensures Apart(workers[j], g, x.state) && PairOk(workers'[i], workers[j]) && PairOk(workers[j], workers'[i])
    {
      Own(fibers, workers, r, q, i, j);
      assert PairOk(workers[i], workers[j]) && PairOk(workers[j], workers[i]);
    }
    Local(fibers, workers, r, q, fibers', workers', r', q', i, g);
  }

  /** The worker books the end of a stay: the fiber is off the stack. */
  lemma BackKeeps(fibers: seq<Fiber>, workers: seq<Worker>, r: Count, q: Count,
                  fibers': seq<Fiber>, workers': seq<Worker>, r': Count, q': Count, i: nat, x: Fiber, w': Worker)
    requires Core(fibers, workers, r, q) && i < |workers| && workers[i].pc.Running? && workers[i].pc.parked
    requires workers' == workers[i := w'] && (w'.pc.Head? || w'.pc.Requeue?) && w'.idle == workers[i].idle
    requires var w := workers[i]; var f := w.pc.fiber;
      && f < |fibers| && fibers' == fibers[f := x] && OthersKeep(f, r, r', q, q')
      && x == (if fibers[f].state == READY then fibers[f]
               else if Finished(fibers, f) then if w.pc.own then Fiber(INIT, false) else fibers[f]
               else fibers[f].(state := HOLD))
      && w'.cbFiber == (if w.pc.own && !Finished(fibers, f) then None else w.cbFiber)
      && r'(f) <= r(f) + (if fibers[f].state == READY then 1 else 0)
      && (fibers[f].state == READY ==> q'(f) > 0)
    ensures Core(fibers', workers', r', q')
  {
    var g := workers[i].pc.fiber;
    assert WorkerOk(fibers, workers[i], r) && FiberOk(fibers, workers, r, q, g);
    forall j | 0 <= j < |workers| && j != i
      ensures Apart(workers[j], g, x.state) && PairOk(w', workers[j]) && PairOk(workers[j], w')
    {
      Own(fibers, workers, r, q, i, j);
      assert PairOk(workers[i], workers[j]) && PairOk(workers[j], workers[i]);
    }
    Local(fibers, workers, r, q, fibers', workers', r', q', i, g);
  }

  /** A fiber with its right in the hands of worker `i` is put on the stack. */
  lemma ResumeKeeps(fibers: seq<Fiber>, workers: seq<Worker>, r: Count, q: Count,
                    fibers': seq<Fiber>, workers': seq<Worker>, r': Count, q': Count, i: nat, g: FiberId)
    requires Core(fibers, workers, r, q) && i < |workers| && workers[i].pc.Hand?
             && workers[i].pc.task.cont == FiberCont(g)
    requires r(g) > 0 && r'(g) == 0 && OthersKeep(g, r, r', q, q')
    requires g < |fibers| && fibers' == fibers[g := fibers[g].(state := EXEC)]
    requires workers' == workers[i := workers[i].(pc := Running(g, false, false, None, false))]
    requires forall j | 0 <= j < |workers| && j != i :: !OnStack(workers[j], g)
    requires forall j | 0 <= j < |workers| && j != i ::
             !(workers[j].pc.Hand? && workers[j].pc.task.cont == FiberCont(g))
    ensures Core(fibers', workers', r', q')
  {
    assert WorkerOk(fibers, workers[i], r) && FiberOk(fibers, workers, r, q, g);
    assert Hosts(workers'[i], g, false);
    forall j | 0 <= j < |workers| && j != i
      ensures Apart(workers[j], g, EXEC) && PairOk(workers'[i], workers[j]) && PairOk(workers[j], workers'[i])
    {
      assert WorkerOk(fibers, workers[j], r) && PairOk(workers[i], workers[j]) && PairOk(workers[j], workers[i]);
    }
    Local(fibers, workers, r, q, fibers', workers', r', q', i, g);
  }

  /** A callback is put on the callback fiber `c` of worker `i`, which may be new. */
  lemma CallKeeps(fibers: seq<Fiber>, workers: seq<Worker>, r: Count, q: Count,
                  fibers': seq<Fiber>, workers': seq<Worker>, r': Count, q': Count, i: nat,
                  c: FiberId, owes: Option<FiberId>)
    requires Core(fibers, workers, r, q) && i < |workers| && workers[i].pc.Hand?
    requires c == if workers[i].cbFiber.Some? then workers[i].cbFiber.value else |fibers|
    requires fibers' == (if workers[i].cbFiber.Some? && c < |fibers| then fibers[c := Fiber(EXEC, true)]
                         else fibers + [Fiber(EXEC, true)])
    requires workers' == workers[i := workers[i].(pc := Running(c, true, false, owes, false), cbFiber := Some(c))]
    requires forall f: nat :: r'(f) <= r(f) && q'(f) >= q(f)
    requires forall j | 0 <= j < |workers| && j != i ::
             !(workers[j].pc.Hand? && workers[j].pc.task.cont == FiberCont(c))
    ensures Core(fibers', workers', r', q')
  {
    assert WorkerOk(fibers, workers[i], r) && FiberOk(fibers, workers, r, q, c);
    assert Hosts(workers'[i], c, false);
    forall j | 0 <= j < |workers| && j != i
      ensures Apart(workers[j], c, EXEC) && PairOk(workers'[i], workers[j]) && PairOk(workers[j], workers'[i])
    {
      assert WorkerOk(fibers, workers[j], r) && PairOk(workers[i], workers[j]) && PairOk(workers[j], workers[i]);
    }
    Local(fibers, workers, r, q, fibers', workers', r', q', i, c);
  }

  /** A new fiber is submitted. */
  lemma SpawnKeeps(fibers: seq<Fiber>, workers: seq<Worker>, r: Count, q: Count, r': Count, q': Count)
    requires Core(fibers, workers, r, q) && r'(|fibers|) <= 1 && OthersKeep(|fibers|, r, r', q, q')
    ensures Core(fibers + [Fiber(INIT, true)], workers, r', q')
  {
    var g := |fibers|;
    assert FiberOk(fibers, workers, r, q, g);
    forall j | 0 <= j < |workers| ensures Apart(workers[j], g, INIT) {
      assert WorkerOk(fibers, workers[j], r);
    }
    Local(fibers, workers, r, q, fibers + [Fiber(INIT, true)], workers, r', q', |workers|, g);
  }
}

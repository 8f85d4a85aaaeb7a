/** The task queue of the scheduler: submission, the eligibility scan, and bounded bypass. */
module Scheduling {
  import opened Tasks

  /** `FiberAndThread`; a thread of -1 leaves the task to any worker. */
  datatype Task = Task(cont: Cont, thread: int)

  const ANY := -1

  /** Pinned to another thread. */
  predicate Foreign(t: Task, thread: int) {
    t.thread != ANY && t.thread != thread
  }

  /** A worker skips the tasks pinned to another thread and the fibers that still execute. */
  predicate Eligible(t: Task, thread: int, exec: set<FiberId>) {
    && !Foreign(t, thread)
    && !(t.cont.FiberCont? && t.cont.fiber in exec)
  }

  /** The position of the task the scan takes, or the length of the queue. */
  function Scan(q: seq<Task>, thread: int, exec: set<FiberId>): (k: nat)
    ensures k <= |q|
    ensures k < |q| ==> Eligible(q[k], thread, exec)
    ensures forall i | 0 <= i < k :: !Eligible(q[i], thread, exec)
  {
    if q == [] || Eligible(q[0], thread, exec) then 0 else 1 + Scan(q[1..], thread, exec)
  }

  /** What the scheduler queues for continuations that are handed over. */
  function AsTasks(conts: seq<Cont>): seq<Task> {
    seq(|conts|, i requires 0 <= i < |conts| => Task(conts[i], ANY))
  }

  /** The tasks made of the continuations that are not null. */
  function Submitted(conts: seq<Option<Cont>>): seq<Task> {
    if conts == [] then []
    else (if conts[0].Some? then [Task(conts[0].value, ANY)] else []) + Submitted(conts[1..])
  }

  class Scheduler {
    var m_fibers: seq<Task>
    var m_activeThreadCount: int
    var m_idleThreadCount: int
    var m_stopping: bool
    var m_autoStop: bool

    constructor ()
      ensures m_fibers == [] && m_activeThreadCount == m_idleThreadCount == 0 && m_stopping && !m_autoStop
    {
      m_fibers, m_activeThreadCount, m_idleThreadCount, m_stopping, m_autoStop := [], 0, 0, true, false;
    }

    /** `scheduleNoLock`: a null fiber or function is dropped; whether the queue was empty is reported either way. */
    method ScheduleNoLock(cont: Option<Cont>, thread: int) returns (needTickle: bool)
      modifies this`m_fibers
      ensures needTickle == (old(m_fibers) == [])
      ensures m_fibers == old(m_fibers) + if cont.Some? then [Task(cont.value, thread)] else []
    {
      needTickle := m_fibers == [];
      if cont.Some? {
        m_fibers := m_fibers + [Task(cont.value, thread)];
      }
    }

    /** `schedule(begin, end)`: every element is swapped out of the caller's container, which keeps no copy. */
    method ScheduleRange(conts: array<Option<Cont>>) returns (needTickle: bool)
      modifies this`m_fibers, conts
      ensures m_fibers == old(m_fibers) + Submitted(old(conts[..]))
      ensures forall i | 0 <= i < conts.Length :: conts[i] == None
      ensures needTickle == (old(m_fibers) == [] && conts.Length > 0)
    {
      needTickle := false;
      ghost var all := conts[..];
      for i := 0 to conts.Length
        invariant m_fibers + Submitted(all[i..]) == old(m_fibers) + Submitted(all)
        invariant forall j | 0 <= j < conts.Length :: conts[j] == if j < i then None else all[j]
        invariant needTickle == (old(m_fibers) == [] && i > 0)
        invariant i == 0 ==> m_fibers == old(m_fibers)
        invariant m_fibers == [] ==> old(m_fibers) == []
      {
        assert all[i..][1..] == all[i + 1..];
        var need := ScheduleNoLock(conts[i], ANY);
        conts[i] := None;
        needTickle := need || needTickle;
      }
      assert all[0..] == all;
    }

    /** The lock region of `run`: the scan of the queue for worker `thread`. */
    method Take(thread: int, exec: set<FiberId>) returns (ft: Option<Task>, tickleMe: bool)
      modifies this`m_fibers, this`m_activeThreadCount
      ensures
        var q, k := old(m_fibers), Scan(old(m_fibers), thread, exec);
        if k < |q| then
          ft == Some(q[k]) && tickleMe && m_fibers == RemoveAt(q, k)
          && m_activeThreadCount == old(m_activeThreadCount) + 1
        else
          ft == None && m_fibers == q && m_activeThreadCount == old(m_activeThreadCount)
          && (tickleMe <==> exists i | 0 <= i < |q| :: Foreign(q[i], thread))
    {
      ft, tickleMe := None, false;
      var it := 0;
      while it < |m_fibers|
        invariant it <= |m_fibers| && m_fibers == old(m_fibers)
        invariant Scan(m_fibers, thread, exec) == it + Scan(m_fibers[it..], thread, exec)
        invariant tickleMe <==> exists i | 0 <= i < it :: Foreign(m_fibers[i], thread)
      {
        assert m_fibers[it..][1..] == m_fibers[it + 1..];
        var t := m_fibers[it];
        if Foreign(t, thread) {
          it := it + 1;
          tickleMe := true;
          continue;
        }
        if t.cont.FiberCont? && t.cont.fiber in exec {
          it := it + 1;
          continue;
        }
        ft, tickleMe := Some(t), true;
        m_fibers := m_fibers[..it] + m_fibers[it + 1..];
        m_activeThreadCount := m_activeThreadCount + 1;
        return;
      }
    }

    /** `Scheduler::stopping`. */
    method Stopping() returns (done: bool)
      ensures done <==> m_autoStop && m_stopping && m_fibers == [] && m_activeThreadCount == 0
    {
      done := m_autoStop && m_stopping && m_fibers == [] && m_activeThreadCount == 0;
    }
  }

  // ----- Bounded bypass -----

  /** What happens to the queue: a worker takes a task, or tasks are submitted. */
  datatype QueueStep = TakeBy(thread: int, exec: set<FiberId>) | Submit(tasks: seq<Task>)

  /** Where the task at position `k` is after one step. */
  datatype Fate = At(position: nat) | Taken

  function Follow(q: seq<Task>, k: nat, step: QueueStep): Fate
    requires k < |q|
  {
    match step
    case Submit(_) => At(k)
    case TakeBy(thread, exec) =>
      var i := Scan(q, thread, exec);
      if i < k then At(k - 1) else if i == k then Taken else At(k)
  }

  function After(q: seq<Task>, step: QueueStep): seq<Task> {
    match step
    case Submit(tasks) => q + tasks
    case TakeBy(thread, exec) => var i := Scan(q, thread, exec); if i < |q| then RemoveAt(q, i) else q
  }

  /** Every take removes one element and keeps the order of the rest, so a task can be followed by its position. */
  lemma FollowIsSound(q: seq<Task>, k: nat, step: QueueStep)
    requires k < |q|
    ensures Follow(q, k, step).At? ==>
      var k' := Follow(q, k, step).position; k' < |After(q, step)| && After(q, step)[k'] == q[k]
  {
    if step.TakeBy? {
      var i := Scan(q, step.thread, step.exec);
      assert i < |q| && i < k ==> RemoveAt(q, i)[k - 1] == q[k];
      assert i < |q| && i > k ==> RemoveAt(q, i)[k] == q[k];
    }
  }

  /** The task at `k` survives the whole run, and stays eligible for `worker` whenever that worker scans. */
  ghost predicate Bypassed(q: seq<Task>, k: nat, run: seq<QueueStep>, worker: int)
    requires k < |q|
    decreases |run|
  {
    run != [] ==>
      && (run[0].TakeBy? && run[0].thread == worker ==> Eligible(q[k], worker, run[0].exec))
      && Follow(q, k, run[0]).At?
      && (FollowIsSound(q, k, run[0]); Bypassed(After(q, run[0]), Follow(q, k, run[0]).position, run[1..], worker))
  }

  function TakesOf(run: seq<QueueStep>, worker: int): nat {
    if run == [] then 0
    else (if run[0].TakeBy? && run[0].thread == worker then 1 else 0) + TakesOf(run[1..], worker)
  }

  /** A task at position `k` that stays eligible for a worker is passed over by at most `k` of that worker's takes. */
  lemma {:induction false} BoundedBypass(q: seq<Task>, k: nat, run: seq<QueueStep>, worker: int)
    requires k < |q| && Bypassed(q, k, run, worker)
    ensures TakesOf(run, worker) <= k
    decreases |run|
  {
    if run != [] {
      FollowIsSound(q, k, run[0]);
      BoundedBypass(After(q, run[0]), Follow(q, k, run[0]).position, run[1..], worker);
    }
  }
}

/** The sleep and wake-up protocol of the idle loop with one worker: which timers and tasks are slept through. */
module Tickle {
  import opened Tasks
  import opened Timers

  const MAX_TIMEOUT := 3000
  const TWO31 := 0x8000_0000
  const TWO32 := 0x1_0000_0000

  /** The conversion of a 64-bit number to `int`. */
  function AsInt(t: uint64): int {
    var low := t % TWO32;
    if low < TWO31 then low else low - TWO32
  }

  /** The timeout that `idle` passes to `epoll_wait`; a negative one waits for ever. */
  function WaitMs(timeout: uint64): int {
    if timeout == NONE64 then MAX_TIMEOUT
    else if AsInt(timeout) > MAX_TIMEOUT then MAX_TIMEOUT
    else AsInt(timeout)
  }

  /** The cast to `int` does not turn the timeout negative. */
  predicate CastSound(timeout: uint64) {
    timeout == NONE64 || timeout % TWO32 < TWO31
  }

  /** The wait is bounded, and not longer than asked for, exactly for the timeouts whose low half is below 2^31. */
  lemma WaitIsBoundedIff(timeout: uint64)
    ensures CastSound(timeout) <==> 0 <= WaitMs(timeout) <= MAX_TIMEOUT && WaitMs(timeout) <= timeout
  {
  }

  /** Where the worker is in its loop; it counts as idle from `Awake` to `Woken`. */
  datatype Worker =
    | Busy                               // runs tasks, or is about to look for one
    | Scanned                            // has found no task
    | Awake                              // in the idle loop, about to look at the timers
    | Waiting(wake: Option<int>)         // has computed when to wake, or for ever; blocked, or about to
    | Polling                            // the same for a wait of 0 ms, which is over at once
    | Woken                              // the wait is over

  /**
    * `tasks` are queued for the worker, `foreign` ones for threads it is not; `bytes` are in the tickle pipe;
    * `owed` counts the threads that were told to tickle, by the timers or by the queue, and have not done so yet.
    */
  datatype State = State(
    timers: seq<Entry<nat>>, previous: uint64, tickled: bool,
    tasks: nat, foreign: nat, bytes: nat, owed: nat, worker: Worker)

  datatype Label =
    | Add(ms: uint64, now: uint64, recurring: bool, addr: nat)
    | Remove(k: nat)
    | Submit(pinned: bool)      // the lock region of `schedule`; pinned: for another thread
    | Notify                    // the tickle that a lock region asked for
    | Poke                      // any other `tickle`
    | Peek                      // another thread asks `stopping`, which reads the next timer
    | Look                      // the scan of the queue: a task is taken and run, or there is none
    | EnterIdle
    | Compute(now: uint64)      // `getNextTimer`, and the timeout of the wait
    | Interrupt                 // EINTR: the wait starts again
    | Wake(now: uint64)         // the wait is over, and the callbacks of the expired timers are submitted
    | Drain                     // the pipe is read, if it was reported
    | LeaveIdle

  predicate HasIdle(s: State) { !s.worker.Busy? && !s.worker.Scanned? }

  function Tickled(s: State): State {
    if HasIdle(s) then s.(bytes := s.bytes + 1) else s
  }

  predicate Enabled(s: State, l: Label) {
    match l
    case Add(_, _, _, addr) => forall e <- s.timers :: e.addr != addr
    case Remove(k) => k < |s.timers|
    case Notify => s.owed > 0
    case Look => s.worker.Busy?
    case EnterIdle => s.worker.Scanned?
    case Compute(_) => s.worker.Awake?
    case Interrupt => s.worker.Waiting?
    case Wake(_) => s.worker.Waiting? || s.worker.Polling?
    case Drain => s.worker.Woken?
    case LeaveIdle => s.worker.Woken?
    case _ => true
  }

  function AddStep(s: State, ms: uint64, now: uint64, recurring: bool, addr: nat): State {
    var e := Entry(Add64(now, ms), addr, ms, recurring, 0);
    var timers := Insert(s.timers, e);
    var atFront := timers[0] == e && !s.tickled;
    s.(timers := timers, tickled := s.tickled || atFront, owed := s.owed + if atFront then 1 else 0)
  }

  /** A tickle is asked for exactly when the queue was empty. */
  function SubmitStep(s: State, pinned: bool): State {
    var owed := s.owed + if s.tasks + s.foreign == 0 then 1 else 0;
    if pinned then s.(foreign := s.foreign + 1, owed := owed) else s.(tasks := s.tasks + 1, owed := owed)
  }

  function ComputeStep(s: State, now: uint64): State {
    var ms := WaitMs(NextTimeout(s.timers, now));
    s.(tickled := false,
       worker := if ms == 0 then Polling else if ms < 0 then Waiting(None) else Waiting(Some(now + ms)))
  }

  function WakeStep(s: State, now: uint64): State {
    var k := ExpireCount(s.timers, now, s.previous);
    s.(timers := Rearm(s.timers[..k], s.timers[k..], now), previous := if s.timers == [] then s.previous else now,
       tasks := s.tasks + k, bytes := s.bytes + (if k > 0 && s.tasks + s.foreign == 0 then 1 else 0), worker := Woken)
  }

  function Next(s: State, l: Label): State
    requires Enabled(s, l)
  {
    match l
    case Add(ms, now, recurring, addr) => AddStep(s, ms, now, recurring, addr)
    case Remove(k) => s.(timers := s.timers[..k] + s.timers[k + 1..])
    case Submit(pinned) => SubmitStep(s, pinned)
    case Notify => Tickled(s.(owed := s.owed - 1))
    case Poke => Tickled(s)
    case Peek => s.(tickled := false)
    case Look => if s.tasks > 0 then s.(tasks := s.tasks - 1) else s.(worker := Scanned)
    case EnterIdle => s.(worker := Awake)
    case Compute(now) => ComputeStep(s, now)
    case Interrupt => s
    case Wake(now) => WakeStep(s, now)
    case Drain => s.(bytes := 0)
    case LeaveIdle => s.(worker := Busy)
  }

  /** A byte is in the pipe, or a thread has been told to write one. */
  predicate Alarm(s: State) { s.bytes > 0 || s.owed > 0 }

  predicate DueBefore(e: Entry<nat>, wake: Option<int>) {
    wake.None? || e.next < wake.value
  }

  /** While the worker waits, any timer due before it wakes has raised the alarm; so has whoever set `m_tickled`. */
  predicate NothingMissed(s: State) {
    s.worker.Waiting? && !Alarm(s) ==>
      !s.tickled && forall i | 0 <= i < |s.timers| :: !DueBefore(s.timers[i], s.worker.wake)
  }

  predicate Sorted(ts: seq<Entry<nat>>) {
    forall i, j | 0 <= i < j < |ts| :: ts[i].next <= ts[j].next
  }

  predicate Inv(s: State) {
    Sorted(s.timers) && NothingMissed(s)
  }

  lemma {:induction false} InsertShape(ts: seq<Entry<nat>>, e: Entry<nat>)
    requires Sorted(ts)
    ensures Sorted(Insert(ts, e)) && |Insert(ts, e)| == |ts| + 1
    ensures forall x <- Insert(ts, e) :: x == e || x in ts
    ensures ts == [] || e.next < ts[0].next ==> Insert(ts, e)[0] == e
  {
    if ts == [] || Before(e, ts[0]) {
    } else {
      InsertShape(ts[1..], e);
      var r := Insert(ts[1..], e);
      forall j | 0 <= j < |r| ensures ts[0].next <= r[j].next {
        assert r[j] == e || r[j] in ts[1..];
      }
    }
  }

  lemma {:induction false} RearmSorted(expired: seq<Entry<nat>>, rest: seq<Entry<nat>>, now: uint64)
    requires Sorted(rest)
    ensures Sorted(Rearm(expired, rest, now))
    decreases |expired|
  {
    if expired != [] {
      var e := expired[0];
      if e.recurring {
        InsertShape(rest, Rearmed(e, now));
      }
      RearmSorted(expired[1..], if e.recurring then Insert(rest, Rearmed(e, now)) else rest, now);
    }
  }

  /** Computing the wake time misses nothing exactly when the cast is sound, or the alarm is raised anyway. */
  lemma ComputeMissesNothingIff(s: State, now: uint64)
    requires Sorted(s.timers) && s.worker.Awake?
    ensures NothingMissed(ComputeStep(s, now)) <==> CastSound(NextTimeout(s.timers, now)) || Alarm(s)
  {
    var t := NextTimeout(s.timers, now);
    WaitIsBoundedIff(t);
    if !CastSound(t) {
      assert DueBefore(s.timers[0], None);
    }
  }

  /** Every step keeps the protocol, whatever the other threads do, as long as the cast is sound. */
  lemma StepKeeps(s: State, l: Label)
    requires Enabled(s, l) && Inv(s)
    requires l.Compute? ==> CastSound(NextTimeout(s.timers, l.now))
    ensures Inv(Next(s, l))
  {
    match l
    case Add(ms, now, recurring, addr) => InsertShape(s.timers, Entry(Add64(now, ms), addr, ms, recurring, 0));
    case Compute(now) => ComputeMissesNothingIff(s, now);
    case Wake(now) =>
      var k := ExpireCount(s.timers, now, s.previous);
      RearmSorted(s.timers[..k], s.timers[k..], now);
    case _ =>
  }

  // ----- Runs -----

  predicate Possible(s: State, ls: seq<Label>)
    decreases |ls|
  {
    ls == [] || (Enabled(s, ls[0]) && Possible(Next(s, ls[0]), ls[1..]))
  }

  function Final(s: State, ls: seq<Label>): State
    requires Possible(s, ls)
    decreases |ls|
  {
    if ls == [] then s else Final(Next(s, ls[0]), ls[1..])
  }

  /** The run casts no timeout to a negative number. */
  predicate CastsSound(s: State, ls: seq<Label>)
    requires Possible(s, ls)
    decreases |ls|
  {
    ls == []
    || ((ls[0].Compute? ==> CastSound(NextTimeout(s.timers, ls[0].now))) && CastsSound(Next(s, ls[0]), ls[1..]))
  }

  function Start(previous: uint64): State { State([], previous, false, 0, 0, 0, 0, Busy) }

  lemma {:induction false} RunKeeps(s: State, ls: seq<Label>)
    requires Inv(s) && Possible(s, ls) && CastsSound(s, ls)
    ensures Inv(Final(s, ls))
    decreases |ls|
  {
    if ls != [] {
      StepKeeps(s, ls[0]);
      RunKeeps(Next(s, ls[0]), ls[1..]);
    }
  }

  /** No lost wake-up: in every run, a waiting worker that would sleep past a timer has a byte or a tickle coming. */
  lemma NoLostWakeUp(previous: uint64, ls: seq<Label>, i: nat)
    requires Possible(Start(previous), ls) && CastsSound(Start(previous), ls)
    ensures
      var s := Final(Start(previous), ls);
      s.worker.Waiting? && i < |s.timers| && DueBefore(s.timers[i], s.worker.wake) ==> s.bytes > 0 || s.owed > 0
  {
    RunKeeps(Start(previous), ls);
  }

  /** A timer of 2^31 ms, about 25 days, set while the worker is busy: it then waits for ever, and nobody wakes it. */
  lemma LongTimerIsSleptThrough()
    ensures
      var ls := [Add(TWO31, 0, false, 0), Notify, Look, EnterIdle, Compute(0)];
      Possible(Start(0), ls) && Unwatched(Final(Start(0), ls))
  {
    var ls := [Add(TWO31, 0, false, 0), Notify, Look, EnterIdle, Compute(0)];
    var ts := [Entry(TWO31, 0, TWO31, false, 0)];
    var armed := State(ts, 0, true, 0, 0, 0, 1, Busy);
    var told := armed.(owed := 0);
    var end := told.(worker := Waiting(None), tickled := false);
    Through([Start(0), armed, told, told.(worker := Scanned), told.(worker := Awake), end], ls, 0);
    assert ls[0..] == ls;
    assert DueBefore(end.timers[0], end.worker.wake);
  }

  /** The worker waits for ever, a timer is set, and nobody has been told to wake it. */
  ghost predicate Unwatched(s: State) {
    s.worker == Waiting(None) && |s.timers| == 1 && !Alarm(s) && !NothingMissed(s)
  }

  /** A run through the states given. */
  lemma {:induction false} Through(s: seq<State>, ls: seq<Label>, i: nat)
    requires i <= |ls| && |s| == |ls| + 1
    requires forall j | 0 <= j < |ls| :: Enabled(s[j], ls[j]) && Next(s[j], ls[j]) == s[j + 1]
    ensures Possible(s[i], ls[i..]) && Final(s[i], ls[i..]) == s[|ls|]
    decreases |ls| - i
  {
    if i < |ls| {
      Through(s, ls, i + 1);
      assert ls[i..][1..] == ls[i + 1..];
    }
  }

  // ----- Queued tasks -----

  /** A worker that is about to wait, or waits, while a task is queued for it will be woken. */
  predicate TaskAlarm(s: State) {
    (s.worker.Scanned? || s.worker.Awake? || s.worker.Waiting?) && s.tasks > 0 ==> Alarm(s)
  }

  /**
    * The two ways to miss a task. The last tickle comes after the scan and before the worker counts as idle, and so
    * writes nothing; or the task is queued behind one for another thread, and no tickle is asked for.
    */
  predicate Misses(s: State, l: Label) {
    || (l.Notify? && s.worker.Scanned? && s.tasks > 0 && s.owed == 1 && s.bytes == 0)
    || (l == Submit(false) && s.foreign > 0 && !Alarm(s)
        && (s.worker.Scanned? || s.worker.Awake? || s.worker.Waiting?))
  }

  lemma TaskAlarmStays(s: State, l: Label)
    requires Enabled(s, l) && TaskAlarm(s)
    ensures TaskAlarm(Next(s, l)) <==> !Misses(s, l)
  {
  }

  predicate NeverMisses(s: State, ls: seq<Label>)
    requires Possible(s, ls)
    decreases |ls|
  {
    ls == [] || (!Misses(s, ls[0]) && NeverMisses(Next(s, ls[0]), ls[1..]))
  }

  predicate AlwaysTaskAlarm(s: State, ls: seq<Label>)
    requires Possible(s, ls)
    decreases |ls|
  {
    TaskAlarm(s) && (ls == [] || AlwaysTaskAlarm(Next(s, ls[0]), ls[1..]))
  }

  /** Over every run: no worker goes to sleep or sleeps on beside a task, unalarmed, exactly when no step misses one. */
  lemma {:induction false} NoTaskSleptThroughIff(s: State, ls: seq<Label>)
    requires TaskAlarm(s) && Possible(s, ls)
    ensures AlwaysTaskAlarm(s, ls) <==> NeverMisses(s, ls)
    decreases |ls|
  {
    if ls != [] {
      TaskAlarmStays(s, ls[0]);
      if !Misses(s, ls[0]) {
        NoTaskSleptThroughIff(Next(s, ls[0]), ls[1..]);
      } else {
        assert !AlwaysTaskAlarm(Next(s, ls[0]), ls[1..]);
      }
    }
  }

  /** A task submitted between the scan and the count of idle workers: the worker sleeps its three seconds beside it. */
  lemma TaskIsSleptThrough()
    ensures
      var ls := [Look, Submit(false), Notify, EnterIdle, Compute(0)];
      && Possible(Start(0), ls)
      && Final(Start(0), ls) == State([], 0, false, 1, 0, 0, 0, Waiting(Some(MAX_TIMEOUT)))
  {
    var ls := [Look, Submit(false), Notify, EnterIdle, Compute(0)];
    var looked := Start(0).(worker := Scanned);
    var queued := looked.(tasks := 1, owed := 1);
    var told := queued.(owed := 0);
    var asleep := told.(worker := Waiting(Some(MAX_TIMEOUT)));
    Through([Start(0), looked, queued, told, told.(worker := Awake), asleep], ls, 0);
    assert ls[0..] == ls;
  }

  /** A task submitted behind one that is pinned to another thread: the worker sleeps on, and no tickle is asked for. */
  lemma TaskBehindAnotherIsSleptThrough()
    ensures
      var ls := [Submit(true), Notify, Look, EnterIdle, Compute(0), Submit(false)];
      && Possible(Start(0), ls)
      && Final(Start(0), ls) == State([], 0, false, 1, 1, 0, 0, Waiting(Some(MAX_TIMEOUT)))
  {
    var ls := [Submit(true), Notify, Look, EnterIdle, Compute(0), Submit(false)];
    var pinned := Start(0).(foreign := 1, owed := 1);
    var told := pinned.(owed := 0);
    var asleep := told.(worker := Waiting(Some(MAX_TIMEOUT)));
    Through([Start(0), pinned, told, told.(worker := Scanned), told.(worker := Awake), asleep, asleep.(tasks := 1)],
      ls, 0);
    assert ls[0..] == ls;
  }
}

/** `Timer` and `TimerManager` as objects updated in place, proved against the functions on values. */
module TimerManagement {
  import opened Tasks
  import opened Timers

  class Timer<C> {
    const m_addr: nat
    var m_recurring: bool
    var m_ms: uint64
    var m_next: uint64
    var m_cb: Option<C>
    ghost var armedAt: uint64    // the instant the running period counts from

    constructor (addr: nat, ms: uint64, cb: C, recurring: bool, now: uint64)
      ensures m_addr == addr && m_recurring == recurring && m_ms == ms && m_cb == Some(cb)
      ensures m_next == Add64(now, ms) && armedAt == now
    {
      m_addr, m_recurring, m_ms, m_cb := addr, recurring, ms, Some(cb);
      m_next, armedAt := Add64(now, ms), now;
    }

    function View(): Entry<C>
      requires m_cb.Some?
      reads this
    {
      Entry(m_next, m_addr, m_ms, m_recurring, m_cb.value)
    }
  }

  ghost predicate Live<C>(ts: seq<Timer<C>>)
    reads ts
  {
    forall t <- ts :: t.m_cb.Some?
  }

  ghost function Views<C>(ts: seq<Timer<C>>): (s: seq<Entry<C>>)
    requires Live(ts)
    reads ts
    ensures |s| == |ts|
  {
    seq(|ts|, i requires 0 <= i < |ts| reads ts requires ts[i].m_cb.Some? => ts[i].View())
  }

  /** Subtracting the period from the deadline gives the start of the period, even where the addition wrapped. */
  lemma StartIsArmed(start: uint64, ms: uint64)
    ensures Sub64(Add64(start, ms), ms) == start
  {
  }

  /** A timer put at its lower bound keeps the set ordered. */
  lemma PlaceAt<C>(ts: seq<Timer<C>>, k: nat, t: Timer<C>)
    requires Live(ts) && k <= |ts| && t.m_cb.Some? && Ordered(Views(ts))
    requires forall i | 0 <= i < |ts| :: ts[i].m_addr != t.m_addr
    requires forall i | 0 <= i < k :: KeyBefore(ts[i].m_next, ts[i].m_addr, t.m_next, t.m_addr)
    requires k < |ts| ==> !KeyBefore(ts[k].m_next, ts[k].m_addr, t.m_next, t.m_addr)
    ensures Live(ts[..k] + [t] + ts[k..])
    ensures Views(ts[..k] + [t] + ts[k..]) == Insert(Views(ts), t.View())
    ensures Ordered(Insert(Views(ts), t.View()))
  {
    var s := Views(ts);
    assert forall i | 0 <= i < |ts| :: s[i] == ts[i].View();
    InsertAt(s, t.View(), k);
    InsertOrdered(s, t.View());
    ViewsInsert(ts, k, t);
  }

  lemma ViewsInsert<C>(ts: seq<Timer<C>>, k: nat, t: Timer<C>)
    requires Live(ts) && k <= |ts| && t.m_cb.Some?
    ensures Live(ts[..k] + [t] + ts[k..])
    ensures Views(ts[..k] + [t] + ts[k..]) == Views(ts)[..k] + [t.View()] + Views(ts)[k..]
  {
  }

  lemma MembersInsert<T>(ts: seq<T>, k: nat, t: T)
    requires k <= |ts|
    ensures forall u: T :: u in ts[..k] + [t] + ts[k..] <==> u in ts || u == t
  {
    assert ts == ts[..k] + ts[k..];
  }

  lemma MembersRemove<T>(ts: seq<T>, k: nat)
    requires k < |ts| && forall j | 0 <= j < |ts| && j != k :: ts[j] != ts[k]
    ensures forall u: T :: u in ts[..k] + ts[k + 1..] <==> u in ts && u != ts[k]
  {
    assert ts == ts[..k] + [ts[k]] + ts[k + 1..];
  }

  lemma ViewsRemove<C>(ts: seq<Timer<C>>, k: nat)
    requires Live(ts) && k < |ts|
    ensures Live(ts[..k] + ts[k + 1..])
    ensures Views(ts[..k] + ts[k + 1..]) == Views(ts)[..k] + Views(ts)[k + 1..]
  {
  }

  class TimerManager<C> {
    var m_timers: seq<Timer<C>>
    var m_tickled: bool
    var m_previouseTime: uint64
    ghost var created: set<Timer<C>>    // the timers made here that have not been destroyed

    ghost predicate Known()
      reads this, created
    {
      && (forall t <- m_timers :: t in created)
      && (forall t <- created :: t.m_next == Add64(t.armedAt, t.m_ms))
      && (forall t <- created, u <- created :: t.m_addr == u.m_addr ==> t == u)
    }

    /** In the set exactly when the callback is set; strictly ordered by deadline and identity. */
    ghost predicate Valid()
      reads this, created
    {
      && Known()
      && (forall t <- created :: t in m_timers <==> t.m_cb.Some?)
      && Ordered(View())
    }

    ghost function View(): seq<Entry<C>>
      requires Known() && forall t <- m_timers :: t.m_cb.Some?
      reads this, created
    {
      Views(m_timers)
    }

    constructor (now: uint64)
      ensures Valid() && View() == [] && created == {} && !m_tickled && m_previouseTime == now
    {
      m_timers, m_tickled, m_previouseTime, created := [], false, now, {};
    }

    /** The position of the first timer whose key is not before the given one. */
    method LowerBound(next: int, addr: int) returns (k: nat)
      ensures k <= |m_timers|
      ensures forall i | 0 <= i < k :: KeyBefore(m_timers[i].m_next, m_timers[i].m_addr, next, addr)
      ensures k < |m_timers| ==> !KeyBefore(m_timers[k].m_next, m_timers[k].m_addr, next, addr)
    {
      k := 0;
      while k < |m_timers| && KeyBefore(m_timers[k].m_next, m_timers[k].m_addr, next, addr)
        invariant k <= |m_timers|
        invariant forall i | 0 <= i < k :: KeyBefore(m_timers[i].m_next, m_timers[i].m_addr, next, addr)
      {
        k := k + 1;
      }
    }

    /** `std::set::find` under the comparator: the position, or the length. */
    method Find(t: Timer<C>) returns (k: nat)
      requires Valid() && t in created
      ensures k <= |m_timers| && (k < |m_timers| <==> t in m_timers) && (k < |m_timers| ==> m_timers[k] == t)
    {
      k := LowerBound(t.m_next, t.m_addr);
      forall j | k < j < |m_timers| ensures m_timers[j] != t {
        assert Before(m_timers[k].View(), m_timers[j].View()) by {
          assert Before(View()[k], View()[j]);
        }
      }
      if k < |m_timers| && KeyBefore(t.m_next, t.m_addr, m_timers[k].m_next, m_timers[k].m_addr) {
        k := |m_timers|;
      }
    }

    /** `std::set::insert` of a timer that is not in the set. */
    method InsertTimer(t: Timer<C>) returns (k: nat)
      requires Known() && t in created && t !in m_timers && t.m_cb.Some?
      requires (forall u <- m_timers :: u.m_cb.Some?) && Ordered(View())
      modifies this`m_timers
      ensures Known() && k < |m_timers| && m_timers[k] == t
      ensures |m_timers| == |old(m_timers)| + 1 && (k > 0 ==> m_timers[0] == old(m_timers)[0])
      ensures forall u: Timer<C> :: u in m_timers <==> u in old(m_timers) || u == t
      ensures (forall u <- m_timers :: u.m_cb.Some?) && Ordered(View())
      ensures View() == Insert(old(View()), t.View())
    {
      k := LowerBound(t.m_next, t.m_addr);
      PlaceAt(m_timers, k, t);
      MembersInsert(m_timers, k, t);
      m_timers := m_timers[..k] + [t] + m_timers[k..];
    }

    /** `addTimer` under the write lock: whether the caller owes a notification. */
    method AddLocked(t: Timer<C>) returns (notify: bool)
      requires Known() && t in created && t !in m_timers && t.m_cb.Some?
      requires (forall u <- created :: u in m_timers || u == t <==> u.m_cb.Some?) && Ordered(View())
      modifies this`m_timers, this`m_tickled
      ensures Valid() && View() == Insert(old(View()), t.View()) && |m_timers| > 0
      ensures forall u: Timer<C> :: u in m_timers <==> u in old(m_timers) || u == t
      ensures notify == (View()[0].addr == t.m_addr && !old(m_tickled)) && m_tickled == (old(m_tickled) || notify)
    {
      var k := InsertTimer(t);
      notify := k == 0 && !m_tickled;
      if notify {
        m_tickled := true;
      }
    }

    /** `addr` is the address that the new timer gets: no other one that exists has it. */
    method AddTimer(ms: uint64, cb: C, recurring: bool, now: uint64, addr: nat) returns (t: Timer<C>, notify: bool)
      requires Valid() && forall u <- created :: u.m_addr != addr
      modifies this
      ensures Valid() && fresh(t) && created == old(created) + {t} && m_previouseTime == old(m_previouseTime)
      ensures t.m_addr == addr && t.armedAt == now && t.m_ms == ms
      ensures View() == Insert(old(View()), Entry(Add64(now, ms), addr, ms, recurring, cb))
      ensures notify == (View()[0].addr == t.m_addr && !old(m_tickled)) && m_tickled == (old(m_tickled) || notify)
    {
      t := new Timer(addr, ms, cb, recurring, now);
      created := created + {t};
      notify := AddLocked(t);
    }

    /** Timers outside the set that nobody refers to any more are destroyed; their addresses may be used again. */
    ghost method Destroy(gone: set<Timer<C>>)
      requires Valid() && forall t <- gone :: t !in m_timers
      modifies this`created
      ensures Valid() && created == old(created) - gone && View() == old(View())
    {
      created := created - gone;
    }

    /** Finds a timer of the set and erases it. */
    method Erase(t: Timer<C>)
      requires Valid() && t in m_timers
      modifies this`m_timers
      ensures Known() && Live(m_timers) && Ordered(View())
      ensures forall u: Timer<C> :: u in m_timers <==> u in old(m_timers) && u != t
    {
      var k := Find(t);
      ghost var s := View();
      forall j | 0 <= j < |m_timers| && j != k ensures m_timers[j] != t {
        assert Before(s[if j < k then j else k], s[if j < k then k else j]);
      }
      ViewsRemove(m_timers, k);
      MembersRemove(m_timers, k);
      m_timers := m_timers[..k] + m_timers[k + 1..];
      assert View() == s[..k] + s[k + 1..];
    }

    /** `Timer::cancel`: the first call takes the timer out and drops its callback. */
    method Cancel(t: Timer<C>) returns (done: bool)
      requires Valid() && t in created
      modifies this`m_timers, t`m_cb
      ensures Valid() && t.m_cb == None && t !in m_timers
      ensures done == old(t.m_cb.Some?)
      ensures forall u: Timer<C> :: u in m_timers <==> u in old(m_timers) && u != t
    {
      done := t.m_cb.Some?;
      if done {
        Erase(t);
        t.m_cb := None;
      }
    }

    /** `Timer::refresh`: it never moves a timer, because the erase is only reached for one that is not in the set. */
    method Refresh(t: Timer<C>, now: uint64) returns (done: bool)
      requires Valid() && t in created
      ensures !done && Valid()
    {
      if t.m_cb.None? {
        return false;
      }
      var it := Find(t);
      if it != |m_timers| {
        return false;
      }
      assert false;
    }

    /** `Timer::reset`: armed again from now, or from the instant its running period counts from. */
    method Reset(t: Timer<C>, ms: uint64, fromNow: bool, now: uint64) returns (done: bool, notify: bool)
      requires Valid() && t in created
      modifies this`m_timers, this`m_tickled, t`m_ms, t`m_next, t`armedAt
      ensures Valid() && t.m_cb == old(t.m_cb)
      ensures done == (old(t.m_cb.Some?) || (ms == old(t.m_ms) && !fromNow))
      ensures forall u: Timer<C> :: u in m_timers <==> u in old(m_timers)
      ensures
        if old(t.m_cb.Some?) && !(ms == old(t.m_ms) && !fromNow) then
          && t.m_ms == ms && t.armedAt == (if fromNow then now else old(t.armedAt))
          && t.m_next == Add64(t.armedAt, ms)
          && notify == (View()[0].addr == t.m_addr && !old(m_tickled)) && m_tickled == (old(m_tickled) || notify)
        else
          unchanged(this, t) && !notify
    {
      done, notify := true, false;
      if ms == t.m_ms && !fromNow {
        return;
      }
      if t.m_cb.None? {
        return false, false;
      }
      var it := Find(t);
      if it == |m_timers| {
        return false, false;
      }
      Erase(t);
      var start := if fromNow then now else Sub64(t.m_next, t.m_ms);
      StartIsArmed(t.armedAt, t.m_ms);
      notify := Restart(t, start, ms);
    }

    /** The deadline is moved while the timer is out of the set. */
    method Restart(t: Timer<C>, start: uint64, ms: uint64) returns (notify: bool)
      requires Known() && t in created && t !in m_timers && t.m_cb.Some?
      requires (forall u <- created :: u in m_timers || u == t <==> u.m_cb.Some?) && Ordered(View())
      modifies this`m_timers, this`m_tickled, t`m_ms, t`m_next, t`armedAt
      ensures Valid() && t.m_ms == ms && t.armedAt == start && t.m_next == Add64(start, ms)
      ensures forall u: Timer<C> :: u in m_timers <==> u in old(m_timers) || u == t
      ensures |m_timers| > 0
      ensures notify == (View()[0].addr == t.m_addr && !old(m_tickled)) && m_tickled == (old(m_tickled) || notify)
    {
      ghost var s := View();
      t.m_ms := ms;
      t.m_next := Add64(start, ms);
      t.armedAt := start;
      assert View() == s;
      notify := AddLocked(t);
    }

    method HasTimer() returns (has: bool)
      requires Valid()
      ensures has <==> View() != []
    {
      has := m_timers != [];
    }

    method GetNextTimer(now: uint64) returns (timeout: uint64)
      requires Valid()
      modifies this`m_tickled
      ensures Valid() && !m_tickled && timeout == NextTimeout(View(), now)
    {
      m_tickled := false;
      if m_timers == [] {
        return NONE64;
      }
      var next := m_timers[0];
      assert View()[0] == next.View();
      timeout := if now >= next.m_next then 0 else next.m_next - now;
    }

    /** `listExpiredCb`; `probe` is the identity of the timer made only to search the set. */
    method ListExpiredCb(now: uint64, probe: nat, cbs0: seq<C>) returns (cbs: seq<C>)
      requires Valid()
      modifies this`m_timers, this`m_previouseTime, m_timers
      ensures Valid() && (old(m_timers) != [] ==> m_previouseTime == now)
      ensures
        var s, k := old(View()), old(ExpireCount(View(), now, m_previouseTime));
        View() == Rearm(s[..k], s[k..], now) && cbs == cbs0 + Callbacks(s[..k])
    {
      cbs := cbs0;
      ghost var s := View();
      if m_timers == [] {
        assert s == [];
        return;
      }
      assert s[0] == m_timers[0].View();
      var rollover := Rollover(now, m_previouseTime);
      m_previouseTime := now;
      if !rollover && m_timers[0].m_next == now {
        assert s[..0] == [] && s[0..] == s;
        return;
      }
      var it := if rollover then |m_timers| else 0;
      if !rollover {
        it := CountDue(now, probe);
      }
      cbs := HandOut(it, now, cbs);
    }

    /** The end of the prefix handed out: the lower bound of the search, moved past the timers due right now. */
    method CountDue(now: uint64, probe: nat) returns (it: nat)
      requires Valid()
      ensures it == Due(View(), now)
    {
      it := LowerBound(now, probe);
      ghost var s := View();
      assert forall i | 0 <= i < |s| :: s[i] == m_timers[i].View();
      while it < |m_timers| && m_timers[it].m_next == now
        invariant it <= |m_timers| && forall i | 0 <= i < it :: s[i].next <= now
        invariant it < |m_timers| ==> s[it].next >= now
      {
        it := it + 1;
        assert it < |m_timers| ==> Before(s[it - 1], s[it]);
      }
      DueAt(s, now, it);
    }

    /** `Valid`, while the timers `ps` have left the set and wait to be handed out. */
    ghost predicate ValidExcept(ps: seq<Timer<C>>)
      reads this, created, ps
    {
      && Known() && Live(m_timers) && Live(ps) && Ordered(View())
      && (forall t <- created :: t.m_cb.Some? <==> t in m_timers || t in ps)
      && (forall i | 0 <= i < |ps| :: ps[i] in created && ps[i] !in m_timers)
      && (forall i, j | 0 <= i < j < |ps| :: ps[i] != ps[j])
    }

    method TakeFront(it: nat) returns (expired: seq<Timer<C>>)
      requires Valid() && it <= |m_timers|
      modifies this`m_timers
      ensures expired == old(m_timers)[..it] && ValidExcept(expired)
      ensures Views(expired) == old(View())[..it] && View() == old(View())[it..]
    {
      ghost var s := View();
      forall i, j | 0 <= i < j < |m_timers| ensures m_timers[i] != m_timers[j] {
        assert Before(s[i], s[j]);
      }
      assert m_timers == m_timers[..it] + m_timers[it..];
      expired := m_timers[..it];
      m_timers := m_timers[it..];
      assert View() == s[it..];
    }

    method HandOutFirst(ghost ps: seq<Timer<C>>, timer: Timer<C>, now: uint64)
      requires ps != [] && ps[0] == timer && ValidExcept(ps)
      modifies this`m_timers, timer
      ensures ValidExcept(ps[1..]) && Views(ps[1..]) == old(Views(ps))[1..]
      ensures View() == if old(timer.m_recurring) then old(Insert(View(), Rearmed(timer.View(), now))) else old(View())
    {
      ghost var s := View();
      ghost var rest := ps[1..];
      assert forall t :: t in ps <==> t == timer || t in rest;
      assert forall i | 0 <= i < |rest| :: rest[i] == ps[i + 1];
      if timer.m_recurring {
        timer.m_next := Add64(now, timer.m_ms);
        timer.armedAt := now;
        assert View() == s;
        var _ := InsertTimer(timer);
      } else {
        timer.m_cb := None;
        assert View() == s;
      }
    }

    /** The timers at the front of the set are taken out, handed out, and armed again where they recur. */
    method HandOut(it: nat, now: uint64, cbs0: seq<C>) returns (cbs: seq<C>)
      requires Valid() && it <= |m_timers|
      modifies this`m_timers, m_timers
      ensures Valid()
      ensures
        var s := old(View());
        View() == Rearm(s[..it], s[it..], now) && cbs == cbs0 + Callbacks(s[..it])
    {
      ghost var all, goal := View()[..it], Rearm(View()[..it], View()[it..], now);
      var expired := TakeFront(it);
      cbs := cbs0;
      ghost var ps, todo := expired, all;
      for i := 0 to |expired|
        invariant ps == expired[i..] && ValidExcept(ps) && Views(ps) == todo
        invariant goal == Rearm(todo, View(), now)
        invariant cbs + Callbacks(todo) == cbs0 + Callbacks(all)
      {
        assert ps[0] == expired[i] && ps[1..] == expired[i + 1..];
        CallbacksCons(cbs, todo);
        cbs := cbs + [expired[i].m_cb.value];
        HandOutFirst(ps, expired[i], now);
        ps, todo := ps[1..], todo[1..];
      }
    }
  }

  lemma CallbacksCons<C>(cbs: seq<C>, s: seq<Entry<C>>)
    requires s != []
    ensures cbs + Callbacks(s) == cbs + [s[0].cb] + Callbacks(s[1..])
  {
  }
}

/** The timer set: values first, then the class that updates timers and their order in place. */
module Timers {

  const TWO64: int := 0x1_0000_0000_0000_0000

  /** The value of `getNextTimer` that stands for "no timer". */
  const NONE64: int := TWO64 - 1

  type uint64 = x: int | 0 <= x < TWO64

  function Add64(a: int, b: int): uint64 { (a + b) % TWO64 }

  function Sub64(a: int, b: int): uint64 { (a - b) % TWO64 }

  /** The state of one timer; `addr` is its identity. */
  datatype Entry<C> = Entry(next: uint64, addr: nat, ms: uint64, recurring: bool, cb: C)

  predicate KeyBefore(next: int, addr: int, next': int, addr': int) {
    next < next' || (next == next' && addr < addr')
  }

  /** `Timer::Comparator`. */
  predicate Before<C>(a: Entry<C>, b: Entry<C>) {
    KeyBefore(a.next, a.addr, b.next, b.addr)
  }

  ghost predicate Ordered<C>(s: seq<Entry<C>>) {
    forall i, j | 0 <= i < j < |s| :: Before(s[i], s[j])
  }

  /** Insertion into the ordered set, of a timer that is not in it. */
  function Insert<C>(s: seq<Entry<C>>, e: Entry<C>): seq<Entry<C>> {
    if s == [] || Before(e, s[0]) then [e] + s else [s[0]] + Insert(s[1..], e)
  }

  /** The prefix of the set whose deadlines have been reached. */
  function Due<C>(s: seq<Entry<C>>, now: int): (k: nat)
    ensures k <= |s|
  {
    if s == [] || s[0].next > now then 0 else 1 + Due(s[1..], now)
  }

  /** `detectClockRollover`: the clock went back by more than an hour, in 64-bit arithmetic. */
  predicate Rollover(now: int, previous: int) {
    now < previous && now < Sub64(previous, 60 * 60 * 1000)
  }

  /** How many timers one call hands out. */
  function ExpireCount<C>(s: seq<Entry<C>>, now: int, previous: int): (k: nat)
    ensures k <= |s|
  {
    if s == [] then 0
    else if Rollover(now, previous) then |s|
    else if s[0].next == now then 0
    else Due(s, now)
  }

  /** The set after the timers in `expired` have been handed out: the recurring ones are armed again. */
  function Rearm<C>(expired: seq<Entry<C>>, rest: seq<Entry<C>>, now: int): seq<Entry<C>> {
    if expired == [] then rest
    else
      var e := expired[0];
      Rearm(expired[1..], if e.recurring then Insert(rest, Rearmed(e, now)) else rest, now)
  }

  function Rearmed<C>(e: Entry<C>, now: int): Entry<C> {
    e.(next := Add64(now, e.ms))
  }

  function Callbacks<C>(s: seq<Entry<C>>): seq<C> {
    seq(|s|, i requires 0 <= i < |s| => s[i].cb)
  }

  function NextTimeout<C>(s: seq<Entry<C>>, now: uint64): uint64 {
    if s == [] then NONE64 else if now >= s[0].next then 0 else s[0].next - now
  }

  // ----- Laws of the value level -----

  lemma {:induction false} InsertAt<C>(s: seq<Entry<C>>, e: Entry<C>, k: nat)
    requires k <= |s| && (forall i | 0 <= i < k :: !Before(e, s[i])) && (k < |s| ==> Before(e, s[k]))
    ensures Insert(s, e) == s[..k] + [e] + s[k..]
  {
    if k > 0 {
      InsertAt(s[1..], e, k - 1);
      assert s[1..][..k - 1] == s[1..k] && s[1..][k - 1..] == s[k..];
      assert [s[0]] + s[1..k] == s[..k];
    }
  }

  ghost predicate Lacks<C>(s: seq<Entry<C>>, addr: nat) {
    forall i | 0 <= i < |s| :: s[i].addr != addr
  }

  lemma InsertOrdered<C>(s: seq<Entry<C>>, e: Entry<C>)
    requires Ordered(s) && Lacks(s, e.addr)
    ensures Ordered(Insert(s, e))
  {
    var k := 0;
    while k < |s| && !Before(e, s[k])
      invariant k <= |s| && forall i | 0 <= i < k :: !Before(e, s[i])
    {
      k := k + 1;
    }
    InsertAt(s, e, k);
  }

  lemma {:induction false} InsertElements<C>(s: seq<Entry<C>>, e: Entry<C>)
    ensures multiset(Insert(s, e)) == multiset(s) + multiset{e}
  {
    if s == [] || Before(e, s[0]) {
    } else {
      InsertElements(s[1..], e);
      assert s == [s[0]] + s[1..];
    }
  }

  lemma {:induction false} DueIs<C>(s: seq<Entry<C>>, now: int)
    requires Ordered(s)
    ensures forall i | 0 <= i < |s| :: i < Due(s, now) <==> s[i].next <= now
  {
    if s != [] && s[0].next <= now {
      DueIs(s[1..], now);
      assert forall i | 1 <= i < |s| :: s[i] == s[1..][i - 1];
    }
  }

  lemma DueAt<C>(s: seq<Entry<C>>, now: int, k: nat)
    requires Ordered(s) && k <= |s| && (forall i | 0 <= i < k :: s[i].next <= now) && (k < |s| ==> s[k].next > now)
    ensures Due(s, now) == k
  {
    DueIs(s, now);
    assert k < |s| ==> s[k].next > now;
    assert k > 0 ==> s[k - 1].next <= now;
  }

  /** What is handed out: everything on rollover; else the due timers, unless the earliest is due at this instant. */
  lemma ExpiredIff<C>(s: seq<Entry<C>>, now: int, previous: int, i: nat)
    requires Ordered(s) && i < |s|
    ensures i < ExpireCount(s, now, previous) <==>
            Rollover(now, previous) || (s[i].next <= now && s[0].next != now)
  {
    DueIs(s, now);
  }

  /** Never early, and never late once the clock is past the deadline. */
  lemma NeverEarlyNeverLate<C>(s: seq<Entry<C>>, now: int, previous: int, i: nat)
    requires Ordered(s) && i < |s| && !Rollover(now, previous)
    ensures i < ExpireCount(s, now, previous) ==> s[i].next <= now
    ensures s[i].next < now ==> i < ExpireCount(s, now, previous)
  {
    ExpiredIff(s, now, previous, i);
  }

  /** What remains: the timers not handed out, and each recurring one at now plus its period. */
  lemma {:induction false} RearmElements<C>(expired: seq<Entry<C>>, rest: seq<Entry<C>>, now: int)
    ensures multiset(Rearm(expired, rest, now)) == multiset(rest) + multiset(RearmedOf(expired, now))
  {
    if expired != [] {
      var e := expired[0];
      if e.recurring {
        var r := Rearmed(e, now);
        InsertElements(rest, r);
        RearmElements(expired[1..], Insert(rest, r), now);
        assert RearmedOf(expired, now) == [r] + RearmedOf(expired[1..], now);
      } else {
        RearmElements(expired[1..], rest, now);
        assert RearmedOf(expired, now) == RearmedOf(expired[1..], now);
      }
    }
  }

  /** Rearming keeps the set strictly ordered. */
  lemma {:induction false} RearmOrdered<C>(expired: seq<Entry<C>>, rest: seq<Entry<C>>, now: int)
    requires Ordered(rest) && forall i | 0 <= i < |expired| :: Lacks(rest, expired[i].addr)
    requires forall i, j | 0 <= i < j < |expired| :: expired[i].addr != expired[j].addr
    ensures Ordered(Rearm(expired, rest, now))
  {
    if expired != [] {
      var e := expired[0];
      var rest' := if e.recurring then Insert(rest, Rearmed(e, now)) else rest;
      if e.recurring {
        InsertOrdered(rest, Rearmed(e, now));
        InsertElements(rest, Rearmed(e, now));
      }
      forall i | 0 <= i < |expired[1..]| ensures Lacks(rest', expired[1..][i].addr) {
        assert forall k | 0 <= k < |rest'| :: rest'[k] in multiset(rest');
        assert expired[1..][i] == expired[i + 1];
      }
      RearmOrdered(expired[1..], rest', now);
    }
  }

  function RearmedOf<C>(expired: seq<Entry<C>>, now: int): seq<Entry<C>> {
    if expired == [] then []
    else (if expired[0].recurring then [Rearmed(expired[0], now)] else []) + RearmedOf(expired[1..], now)
  }

  /** `~0` means "no timer" but for one instant of one deadline. */
  lemma NoneMeansEmpty<C>(s: seq<Entry<C>>, now: uint64)
    ensures NextTimeout(s, now) == NONE64 <==> s == [] || (now == 0 && s[0].next == NONE64)
  {
  }

  /** A deadline is at least its period exactly when the addition did not wrap. */
  lemma DeadlineAtLeastPeriodIff(start: uint64, ms: uint64)
    ensures Add64(start, ms) >= ms <==> start + ms < TWO64
  {
  }
}

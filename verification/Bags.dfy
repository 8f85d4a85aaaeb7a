/** Multisets collected over sequences, the bookkeeping behind every conservation law of the project. */
module Bags {

  /** The sum of the bags that `g` assigns to the elements of `s`. */
  ghost function Gather<T, A>(s: seq<T>, g: T -> multiset<A>): multiset<A> {
    if s == [] then multiset{} else Gather(s[..|s| - 1], g) + g(s[|s| - 1])
  }

  lemma GatherAppend<T, A>(s: seq<T>, x: T, g: T -> multiset<A>)
    ensures Gather(s + [x], g) == Gather(s, g) + g(x)
  {
    assert (s + [x])[..|s|] == s;
  }

  lemma {:induction false} GatherConcat<T, A>(s: seq<T>, t: seq<T>, g: T -> multiset<A>)
    ensures Gather(s + t, g) == Gather(s, g) + Gather(t, g)
  {
    if t == [] {
      assert s + t == s;
    } else {
      var last := |t| - 1;
      GatherConcat(s, t[..last], g);
      assert s + t == (s + t[..last]) + [t[last]];
      GatherAppend(s + t[..last], t[last], g);
    }
  }

  lemma GatherUpdate<T, A>(s: seq<T>, i: nat, x: T, g: T -> multiset<A>)
    requires i < |s|
    ensures Gather(s[i := x], g) + g(s[i]) == Gather(s, g) + g(x)
  {
    GatherSplit(s, i, g);
    GatherSplit(s[i := x], i, g);
    assert s[i := x][..i] == s[..i] && s[i := x][i + 1..] == s[i + 1..];
  }

  lemma GatherRemove<T, A>(s: seq<T>, i: nat, g: T -> multiset<A>)
    requires i < |s|
    ensures Gather(s[..i] + s[i + 1..], g) + g(s[i]) == Gather(s, g)
  {
    GatherSplit(s, i, g);
    GatherConcat(s[..i], s[i + 1..], g);
  }

  lemma GatherSplit<T, A>(s: seq<T>, i: nat, g: T -> multiset<A>)
    requires i < |s|
    ensures Gather(s, g) == Gather(s[..i], g) + g(s[i]) + Gather(s[i + 1..], g)
  {
    assert s == (s[..i] + [s[i]]) + s[i + 1..];
    GatherConcat(s[..i] + [s[i]], s[i + 1..], g);
    GatherAppend(s[..i], s[i], g);
  }

  // The same, counted for one element.

  lemma ConcatAt<T, A>(s: seq<T>, t: seq<T>, g: T -> multiset<A>, a: A)
    ensures Gather(s + t, g)[a] == Gather(s, g)[a] + Gather(t, g)[a]
  {
    GatherConcat(s, t, g);
  }

  lemma UpdateAt<T, A>(s: seq<T>, i: nat, x: T, g: T -> multiset<A>, a: A)
    requires i < |s|
    ensures Gather(s[i := x], g)[a] + g(s[i])[a] == Gather(s, g)[a] + g(x)[a]
  {
    GatherUpdate(s, i, x, g);
    assert (Gather(s[i := x], g) + g(s[i]))[a] == (Gather(s, g) + g(x))[a];
  }

  lemma WithoutAt<T, A>(s: seq<T>, i: nat, g: T -> multiset<A>, a: A)
    requires i < |s|
    ensures Gather(s[..i] + s[i + 1..], g)[a] + g(s[i])[a] == Gather(s, g)[a]
  {
    GatherRemove(s, i, g);
    assert (Gather(s[..i] + s[i + 1..], g) + g(s[i]))[a] == Gather(s, g)[a];
  }

  /** Two different positions contribute separately. */
  lemma GatherTwo<T, A>(s: seq<T>, i: nat, j: nat, g: T -> multiset<A>)
    requires i < j < |s|
    ensures g(s[i]) + g(s[j]) <= Gather(s, g)
  {
    GatherSplit(s, j, g);
    GatherSplit(s[..j], i, g);
  }

  /** Whatever is in the sum comes from some position. */
  lemma {:induction false} GatherMember<T, A>(s: seq<T>, a: A, g: T -> multiset<A>) returns (i: nat)
    requires a in Gather(s, g)
    ensures i < |s| && a in g(s[i])
  {
    if a in g(s[|s| - 1]) {
      i := |s| - 1;
    } else {
      i := GatherMember(s[..|s| - 1], a, g);
    }
  }

  lemma {:induction false} GatherNone<T, A>(s: seq<T>, g: T -> multiset<A>)
    requires forall i | 0 <= i < |s| :: g(s[i]) == multiset{}
    ensures Gather(s, g) == multiset{}
  {
    if s != [] {
      GatherNone(s[..|s| - 1], g);
    }
  }

  /** The same for numbers. */
  ghost function Total<T>(s: seq<T>, g: T -> nat): nat {
    if s == [] then 0 else Total(s[..|s| - 1], g) + g(s[|s| - 1])
  }

  lemma {:induction false} TotalConcat<T>(s: seq<T>, t: seq<T>, g: T -> nat)
    ensures Total(s + t, g) == Total(s, g) + Total(t, g)
  {
    if t == [] {
      assert s + t == s;
    } else {
      var last := |t| - 1;
      TotalConcat(s, t[..last], g);
      assert (s + t)[..|s| + last] == s + t[..last];
    }
  }

  lemma TotalUpdate<T>(s: seq<T>, i: nat, x: T, g: T -> nat)
    requires i < |s|
    ensures Total(s[i := x], g) + g(s[i]) == Total(s, g) + g(x)
  {
    TotalSplit(s, i, g);
    TotalSplit(s[i := x], i, g);
    assert s[i := x][..i] == s[..i] && s[i := x][i + 1..] == s[i + 1..];
  }

  lemma TotalSplit<T>(s: seq<T>, i: nat, g: T -> nat)
    requires i < |s|
    ensures Total(s, g) == Total(s[..i], g) + g(s[i]) + Total(s[i + 1..], g)
  {
    assert s == (s[..i] + [s[i]]) + s[i + 1..];
    assert (s[..i] + [s[i]])[..i] == s[..i];
    TotalConcat(s[..i] + [s[i]], s[i + 1..], g);
  }

  lemma {:induction false} TotalNone<T>(s: seq<T>, g: T -> nat)
    requires forall i | 0 <= i < |s| :: g(s[i]) == 0
    ensures Total(s, g) == 0
  {
    if s != [] {
      TotalNone(s[..|s| - 1], g);
    }
  }

  /** A zero total means that every element counts zero. */
  lemma TotalZero<T>(s: seq<T>, g: T -> nat)
    requires Total(s, g) == 0
    ensures forall i | 0 <= i < |s| :: g(s[i]) == 0
  {
    forall i | 0 <= i < |s| ensures g(s[i]) == 0 {
      TotalSplit(s, i, g);
    }
  }
}

/** Sums over sequences, counts of threads and optional values, for the interleaving models. */
module Counting {

  datatype Option<+T> = None | Some(value: T)

  function Sum(s: seq<int>): int { if s == [] then 0 else s[0] + Sum(s[1..]) }

  lemma {:induction false} SumUpdate(s: seq<int>, i: nat, x: int)
    requires i < |s|
    ensures Sum(s[i := x]) == Sum(s) - s[i] + x
  {
    if i == 0 {
      assert s[0 := x][1..] == s[1..];
    } else {
      assert s[i := x][1..] == s[1..][i - 1 := x];
      SumUpdate(s[1..], i - 1, x);
    }
  }

  lemma {:induction false} SumAppend(s: seq<int>, x: int)
    ensures Sum(s + [x]) == Sum(s) + x
  {
    if s == [] {
      assert [] + [x] == [x] && [x][1..] == [];
    } else {
      SumAppend(s[1..], x);
      assert (s + [x])[1..] == s[1..] + [x];
    }
  }

  lemma {:induction false} SumAtMost(s: seq<int>, t: seq<int>)
    requires |s| == |t| && forall i | 0 <= i < |s| :: s[i] <= t[i]
    ensures Sum(s) <= Sum(t)
  {
    if s != [] {
      SumAtMost(s[1..], t[1..]);
    }
  }

  /** One element of a sequence of non-negative numbers is at most the sum. */
  lemma {:induction false} SumAtLeast(s: seq<int>, i: nat)
    requires i < |s| && forall j | 0 <= j < |s| :: 0 <= s[j]
    ensures s[i] <= Sum(s)
  {
    if i == 0 {
      SumNonNeg(s[1..]);
    } else {
      SumAtLeast(s[1..], i - 1);
    }
  }

  lemma {:induction false} SumNonNeg(s: seq<int>)
    requires forall j | 0 <= j < |s| :: 0 <= s[j]
    ensures 0 <= Sum(s)
  {
    if s != [] {
      SumNonNeg(s[1..]);
    }
  }

  /** The threads whose program counter is in the class f. */
  function Threads<Pc>(pc: map<nat, Pc>, f: Pc -> bool): set<nat> { set t | t in pc && f(pc[t]) }

  function Count<Pc>(pc: map<nat, Pc>, f: Pc -> bool): nat { |Threads(pc, f)| }

  function Bit(b: bool): nat { if b then 1 else 0 }

  /** One thread moves: the count of a class changes by what it leaves and what it enters. */
  lemma CountUpdate<Pc>(pc: map<nat, Pc>, t: nat, x: Pc, f: Pc -> bool)
    requires t in pc
    ensures Count(pc[t := x], f) == Count(pc, f) - Bit(f(pc[t])) + Bit(f(x))
  {
    var before, after := Threads(pc, f), Threads(pc[t := x], f);
    var others := before - {t};
    assert before == if f(pc[t]) then others + {t} else others;
    assert after == if f(x) then others + {t} else others;
  }

  /** Disjoint classes together hold at most all threads; `t`, if outside both, makes one fewer. */
  lemma CountDisjoint<Pc>(pc: map<nat, Pc>, f: Pc -> bool, g: Pc -> bool)
    requires forall x :: !(f(x) && g(x))
    ensures Count(pc, f) + Count(pc, g) <= |pc|
  {
    var a, b := Threads(pc, f), Threads(pc, g);
    assert a !! b;
    assert |a + b| == |a| + |b|;
    SubsetSize(a + b, pc.Keys);
  }

  lemma CountNone<Pc>(pc: map<nat, Pc>, f: Pc -> bool)
    requires forall t | t in pc :: !f(pc[t])
    ensures Count(pc, f) == 0
  {
    assert Threads(pc, f) == {};
  }

  lemma CountAtMostAll<Pc>(pc: map<nat, Pc>, f: Pc -> bool)
    ensures Count(pc, f) <= |pc|
    ensures forall t | t in pc && !f(pc[t]) :: Count(pc, f) < |pc|
  {
    SubsetSize(Threads(pc, f), pc.Keys);
    forall t | t in pc && !f(pc[t])
      ensures Count(pc, f) < |pc|
    {
      SubsetSize(Threads(pc, f), pc.Keys - {t});
    }
  }

  lemma {:induction false} SubsetSize<T>(a: set<T>, b: set<T>)
    requires a <= b
    ensures |a| <= |b|
  {
    assert b == a + (b - a);
    assert |a + (b - a)| == |a| + |b - a|;
  }
}

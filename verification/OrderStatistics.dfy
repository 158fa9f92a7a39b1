/** Sorting and order statistics over sequences of integers. */
module OrderStatistics {

  predicate Sorted(s: seq<int>) { forall i, j | 0 <= i < j < |s| :: s[i] <= s[j] }

  function Insert(x: int, s: seq<int>): seq<int> {
    if s == [] || x <= s[0] then [x] + s else [s[0]] + Insert(x, s[1..])
  }

  /** Insertion sort. */
  function Sort(s: seq<int>): seq<int> {
    if s == [] then [] else Insert(s[0], Sort(s[1..]))
  }

  lemma {:induction false} InsertAdds(x: int, s: seq<int>)
    ensures multiset(Insert(x, s)) == multiset(s) + multiset{x}
  {
    if s != [] && x > s[0] {
      InsertAdds(x, s[1..]);
      assert s == [s[0]] + s[1..];
    }
  }

  lemma {:induction false} InsertAtLeast(x: int, s: seq<int>, y: int)
    requires y <= x && forall i | 0 <= i < |s| :: y <= s[i]
    ensures forall i | 0 <= i < |Insert(x, s)| :: y <= Insert(x, s)[i]
  {
    if s != [] && x > s[0] {
      InsertAtLeast(x, s[1..], y);
    }
  }

  lemma {:induction false} InsertKeepsSorted(x: int, s: seq<int>)
    requires Sorted(s)
    ensures Sorted(Insert(x, s))
  {
    if s != [] && x > s[0] {
      var rest := s[1..];
      InsertKeepsSorted(x, rest);
      InsertAtLeast(x, rest, s[0]);
    }
  }

  /** Sorting sorts, and keeps every element as often as it occurs. */
  lemma {:induction false} SortSorts(s: seq<int>)
    ensures Sorted(Sort(s)) && multiset(Sort(s)) == multiset(s) && |Sort(s)| == |s|
  {
    if s != [] {
      SortSorts(s[1..]);
      InsertAdds(s[0], Sort(s[1..]));
      InsertKeepsSorted(s[0], Sort(s[1..]));
      assert s == [s[0]] + s[1..];
    }
    SameLength(Sort(s), s);
  }

  /** How many elements are below x, and how many are at most x. */
  function Below(s: seq<int>, x: int): nat {
    if s == [] then 0 else (if s[0] < x then 1 else 0) + Below(s[1..], x)
  }

  function AtMost(s: seq<int>, x: int): nat { Below(s, x + 1) }

  lemma {:induction false} InsertBelow(y: int, s: seq<int>, x: int)
    ensures Below(Insert(y, s), x) == Below(s, x) + if y < x then 1 else 0
  {
    if s == [] || y <= s[0] {
      assert ([y] + s)[1..] == s;
    } else {
      InsertBelow(y, s[1..], x);
      assert Insert(y, s)[1..] == Insert(y, s[1..]);
    }
  }

  lemma {:induction false} SortBelow(s: seq<int>, x: int)
    ensures Below(Sort(s), x) == Below(s, x)
  {
    if s != [] {
      SortBelow(s[1..], x);
      InsertBelow(s[0], Sort(s[1..]), x);
    }
  }

  /** In a sorted sequence the elements below x are exactly the first ones. */
  lemma {:induction false} BelowSorted(s: seq<int>, x: int)
    requires Sorted(s)
    ensures Below(s, x) <= |s|
    ensures forall i | 0 <= i < |s| :: s[i] < x <==> i < Below(s, x)
  {
    if s != [] {
      var rest := s[1..];
      assert forall i | 0 <= i < |rest| :: rest[i] == s[i + 1];
      BelowSorted(rest, x);
      forall i | 0 <= i < |s|
        ensures s[i] < x <==> i < Below(s, x)
      {
        if i > 0 {
          assert s[i] == rest[i - 1];
          assert s[0] <= s[i];
        } else if s[0] >= x && rest != [] {
          assert rest[0] >= x;
        }
      }
    }
  }

  /** The k-th smallest element, counting from zero: the only value with at most k elements below it
      and more than k elements at most it. */
  lemma Rank(s: seq<int>, k: nat, x: int)
    requires k < |s|
    ensures k < |Sort(s)| && (x == Sort(s)[k] <==> Below(s, x) <= k < AtMost(s, x))
  {
    hide Below, Sort;
    SortSorts(s);
    SortBelow(s, x);
    SortBelow(s, x + 1);
    BelowSorted(Sort(s), x);
    BelowSorted(Sort(s), x + 1);
    assert Sort(s)[k] < x <==> k < Below(s, x);
    assert Sort(s)[k] < x + 1 <==> k < Below(s, x + 1);
  }

  lemma HeadIsLeast(a: seq<int>, x: int)
    requires Sorted(a) && x in multiset(a)
    ensures a != [] && a[0] <= x
  {
    assert x in a;
    var i :| 0 <= i < |a| && a[i] == x;
  }

  lemma SameHead(a: seq<int>, b: seq<int>)
    requires Sorted(a) && Sorted(b) && multiset(a) == multiset(b) && a != []
    ensures b != [] && a[0] == b[0]
  {
    assert a[0] in multiset(b);
    HeadIsLeast(b, a[0]);
    assert b[0] in multiset(a);
    HeadIsLeast(a, b[0]);
  }

  lemma SameTail(a: seq<int>, b: seq<int>)
    requires multiset(a) == multiset(b) && a != [] && b != [] && a[0] == b[0]
    ensures multiset(a[1..]) == multiset(b[1..])
  {
    assert a == [a[0]] + a[1..];
    assert b == [b[0]] + b[1..];
    assert multiset(a[1..]) == multiset(a) - multiset{a[0]};
    assert multiset(b[1..]) == multiset(b) - multiset{a[0]};
  }

  lemma SortedTail(a: seq<int>)
    requires Sorted(a) && a != []
    ensures Sorted(a[1..])
  {
    assert forall i | 0 <= i < |a| - 1 :: a[1..][i] == a[i + 1];
  }

  lemma SameLength(a: seq<int>, b: seq<int>)
    requires multiset(a) == multiset(b)
    ensures |a| == |b|
  {
    assert |multiset(a)| == |multiset(b)|;
  }

  /** Sorted sequences with the same elements are the same, position by position. */
  lemma {:induction false} SortedUnique(a: seq<int>, b: seq<int>, k: nat)
    requires Sorted(a) && Sorted(b) && multiset(a) == multiset(b) && k < |a|
    ensures k < |b| && a[k] == b[k]
  {
    hide Sorted;
    SameHead(a, b);
    if k > 0 {
      SameTail(a, b);
      SortedTail(a);
      SortedTail(b);
      SortedUnique(a[1..], b[1..], k - 1);
    }
  }

  /** The order in which the elements arrived does not matter. */
  lemma SortIgnoresOrder(s: seq<int>, t: seq<int>)
    requires multiset(s) == multiset(t)
    ensures Sort(s) == Sort(t)
  {
    SortSorts(s);
    SortSorts(t);
    SameLength(Sort(s), Sort(t));
    forall k | 0 <= k < |Sort(s)|
      ensures Sort(s)[k] == Sort(t)[k]
    {
      SortedUnique(Sort(s), Sort(t), k);
    }
  }
}

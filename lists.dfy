/** The JavaScript array operations the shop relies on (`findIndex`/`find`,
    `filter` and a comparator-driven `sort`), each defined once over `seq`
    and characterised by what its result means. */
module Lists {

  /** `Array.prototype.findIndex`: the index of the first element that
      satisfies `p`, or -1 when none does. */
  function FirstIndex<T>(s: seq<T>, p: T -> bool): (r: int)
    ensures -1 <= r < |s|
    ensures r == -1 <==> forall i :: 0 <= i < |s| ==> !p(s[i])
    ensures r != -1 ==> p(s[r]) && forall i :: 0 <= i < r ==> !p(s[i])
  {
    if s == [] then -1
    else if p(s[0]) then 0
    else
      var k := FirstIndex(s[1..], p);
      assert forall i :: 1 <= i < |s| ==> s[1..][i - 1] == s[i];
      if k == -1 then -1 else k + 1
  }

  /** `r` can be obtained from `s` by deleting elements: an order-preserving sub-list. */
  predicate IsSubsequence<T(==)>(r: seq<T>, s: seq<T>)
  {
    r == [] || (s != [] && ((r[0] == s[0] && IsSubsequence(r[1..], s[1..])) || IsSubsequence(r, s[1..])))
  }

  /** `Array.prototype.filter`: the elements of `s` that `keep` accepts, in their order. */
  function Filter<T(==,!new)>(s: seq<T>, keep: T -> bool): (r: seq<T>)
    ensures |r| <= |s|
    ensures IsSubsequence(r, s)
    ensures forall x {:trigger multiset(r)[x]} :: multiset(r)[x] == if keep(x) then multiset(s)[x] else 0
    ensures forall x {:trigger x in r} :: x in r ==> x in s && keep(x)
    ensures forall x {:trigger x in s} :: x in s && keep(x) ==> x in r
  {
    if s == [] then []
    else
      assert s == [s[0]] + s[1..];
      if keep(s[0]) then [s[0]] + Filter(s[1..], keep)
      else Filter(s[1..], keep)
  }

  /** Filtering drops nothing exactly when every element is kept; this is how
      a caller learns from the length alone that nothing matched. */
  lemma {:induction false} FilterKeepsLength<T(!new)>(s: seq<T>, keep: T -> bool)
    ensures |Filter(s, keep)| == |s| <==> forall i :: 0 <= i < |s| ==> keep(s[i])
    ensures (forall i :: 0 <= i < |s| ==> keep(s[i])) ==> Filter(s, keep) == s
  {
    if s != [] {
      FilterKeepsLength(s[1..], keep);
      assert forall i :: 1 <= i < |s| ==> s[1..][i - 1] == s[i];
      assert s == [s[0]] + s[1..];
    }
  }

  /** Filtering twice with the same test is filtering once. */
  lemma {:induction false} FilterIdempotent<T(!new)>(s: seq<T>, keep: T -> bool)
    ensures Filter(Filter(s, keep), keep) == Filter(s, keep)
  {
    if s != [] {
      FilterIdempotent(s[1..], keep);
      if keep(s[0]) {
        assert ([s[0]] + Filter(s[1..], keep))[1..] == Filter(s[1..], keep);
      }
    }
  }

  /** When exactly one position of `s` is rejected, the filtered list is one shorter. */
  lemma {:induction false} FilterDropsOne<T(!new)>(s: seq<T>, keep: T -> bool, k: nat)
    requires k < |s| && !keep(s[k])
    requires forall i :: 0 <= i < |s| && i != k ==> keep(s[i])
    ensures |Filter(s, keep)| == |s| - 1
  {
    assert forall i :: 1 <= i < |s| ==> s[1..][i - 1] == s[i];
    if k == 0 {
      FilterKeepsLength(s[1..], keep);
    } else {
      FilterDropsOne(s[1..], keep, k - 1);
    }
  }

  // ---------------------------------------------------------------------------
  // Sums

  /** `reduce((sum, x) => sum + f(x), 0)`: `f` summed over `s`, from the left. */
  function Sum<T>(s: seq<T>, f: T -> int): (r: int)
    ensures s == [] ==> r == 0
    ensures (forall i :: 0 <= i < |s| ==> f(s[i]) >= 0) ==> r >= 0
  {
    if s == [] then 0 else Sum(s[..|s| - 1], f) + f(s[|s| - 1])
  }

  lemma {:induction false} SumAppend<T>(a: seq<T>, b: seq<T>, f: T -> int)
    ensures Sum(a + b, f) == Sum(a, f) + Sum(b, f)
  {
    if b == [] {
      assert a + b == a;
    } else {
      SumAppend(a, b[..|b| - 1], f);
      assert (a + b)[..|a + b| - 1] == a + b[..|b| - 1];
    }
  }

  /** Replacing one element changes the sum by the difference it makes. */
  lemma SumUpdate<T>(s: seq<T>, k: nat, x: T, f: T -> int)
    requires k < |s|
    ensures Sum(s[k := x], f) == Sum(s, f) - f(s[k]) + f(x)
  {
    assert s == s[..k] + [s[k]] + s[k + 1..];
    assert s[k := x] == s[..k] + [x] + s[k + 1..];
    SumAppend(s[..k] + [s[k]], s[k + 1..], f);
    SumAppend(s[..k], [s[k]], f);
    SumAppend(s[..k] + [x], s[k + 1..], f);
    SumAppend(s[..k], [x], f);
  }

  /** Sums of two lists agree when they agree position by position. */
  lemma {:induction false} SumPointwise<T, U>(s: seq<T>, f: T -> int, t: seq<U>, g: U -> int)
    requires |s| == |t| && forall i :: 0 <= i < |s| ==> f(s[i]) == g(t[i])
    ensures Sum(s, f) == Sum(t, g)
  {
    if s != [] {
      SumPointwise(s[..|s| - 1], f, t[..|t| - 1], g);
    }
  }

  // ---------------------------------------------------------------------------
  // Sorting with a comparator

  /** `leq(a, b)` reads "a may be placed before b": a comparator that returns a value <= 0. */
  ghost predicate IsTotalPreorder<T(!new)>(leq: (T, T) -> bool)
  {
    && (forall a, b :: leq(a, b) || leq(b, a))
    && (forall a, b, c :: leq(a, b) && leq(b, c) ==> leq(a, c))
  }

  ghost predicate IsAntisymmetric<T(!new)>(leq: (T, T) -> bool)
  {
    forall a, b :: leq(a, b) && leq(b, a) ==> a == b
  }

  predicate IsSorted<T>(s: seq<T>, leq: (T, T) -> bool)
  {
    forall i, j :: 0 <= i < j < |s| ==> leq(s[i], s[j])
  }

  /** Places `x` in front of the first element it may precede. */
  function Insert<T(==)>(x: T, s: seq<T>, leq: (T, T) -> bool): (r: seq<T>)
    ensures multiset(r) == multiset{x} + multiset(s)
    ensures |r| == |s| + 1
  {
    if s == [] then [x]
    else if leq(x, s[0]) then [x] + s
    else
      assert s == [s[0]] + s[1..];
      [s[0]] + Insert(x, s[1..], leq)
  }

  /** Insertion sort. Earlier elements are inserted last, in front of their
      equals, so ties keep their input order like JavaScript's stable sort
      (`SortIsStable`). */
  function Sort<T(==)>(s: seq<T>, leq: (T, T) -> bool): (r: seq<T>)
    ensures multiset(r) == multiset(s)
    ensures |r| == |s|
  {
    if s == [] then []
    else
      assert s == [s[0]] + s[1..];
      Insert(s[0], Sort(s[1..], leq), leq)
  }

  lemma {:induction false} InsertKeepsSorted<T(!new)>(x: T, s: seq<T>, leq: (T, T) -> bool)
    requires IsTotalPreorder(leq) && IsSorted(s, leq)
    ensures IsSorted(Insert(x, s, leq), leq)
  {
    if s != [] && !leq(x, s[0]) {
      var tail := s[1..];
      InsertKeepsSorted(x, tail, leq);
      var r := Insert(x, tail, leq);
      assert leq(s[0], x);
      forall k | 0 <= k < |r|
        ensures leq(s[0], r[k])
      {
        assert r[k] in multiset(r);
        assert r[k] == x || r[k] in multiset(tail);
        if r[k] != x {
          var j :| 0 <= j < |tail| && tail[j] == r[k];
          assert s[j + 1] == r[k];
        }
      }
      assert Insert(x, s, leq) == [s[0]] + r;
    }
  }

  lemma {:induction false} SortIsSorted<T(!new)>(s: seq<T>, leq: (T, T) -> bool)
    requires IsTotalPreorder(leq)
    ensures IsSorted(Sort(s, leq), leq)
  {
    if s != [] {
      SortIsSorted(s[1..], leq);
      InsertKeepsSorted(s[0], Sort(s[1..], leq), leq);
    }
  }

  /** `a` and `b` are tied: each may be placed before the other. */
  predicate Tied<T>(leq: (T, T) -> bool, a: T, b: T)
  {
    leq(a, b) && leq(b, a)
  }

  /** Inserting `y` puts it in front of every element tied with `x`
      already in the list, and leaves the order of those elements alone. */
  lemma {:induction false} InsertKeepsTies<T(!new)>(y: T, t: seq<T>, leq: (T, T) -> bool, x: T)
    requires IsTotalPreorder(leq)
    ensures Filter(Insert(y, t, leq), z => Tied(leq, x, z)) ==
      if Tied(leq, x, y) then [y] + Filter(t, z => Tied(leq, x, z)) else Filter(t, z => Tied(leq, x, z))
  {
    var tied := z => Tied(leq, x, z);
    if t == [] {
      assert [y][1..] == [];
    } else if leq(y, t[0]) {
      assert ([y] + t)[1..] == t;
    } else {
      InsertKeepsTies(y, t[1..], leq, x);
      var r := Insert(y, t[1..], leq);
      assert ([t[0]] + r)[1..] == r;
      // A tie of `y` with `x` would let `y` precede `t[0]` when `t[0]` is tied too.
      assert tied(y) ==> !tied(t[0]);
    }
  }

  /** `Sort` is stable: the elements tied with any `x` come out in the order
      they went in. */
  lemma {:induction false} SortIsStable<T(!new)>(s: seq<T>, leq: (T, T) -> bool, x: T)
    requires IsTotalPreorder(leq)
    ensures Filter(Sort(s, leq), z => Tied(leq, x, z)) == Filter(s, z => Tied(leq, x, z))
  {
    if s != [] {
      SortIsStable(s[1..], leq, x);
      InsertKeepsTies(s[0], Sort(s[1..], leq), leq, x);
    }
  }

  /** The first element of a sorted list may precede every element of the list. */
  lemma SortedHeadIsLeast<T(!new)>(a: seq<T>, x: T, leq: (T, T) -> bool)
    requires IsTotalPreorder(leq) && IsSorted(a, leq) && x in multiset(a)
    ensures leq(a[0], x)
  {
    var i :| 0 <= i < |a| && a[i] == x;
    if i == 0 {
      assert leq(a[0], a[0]);
    }
  }

  /** Removing the head of a list removes one occurrence of it from the multiset. */
  lemma TailMultiset<T>(a: seq<T>)
    requires a != []
    ensures multiset(a[1..]) == multiset(a) - multiset{a[0]}
  {
    assert a == [a[0]] + a[1..];
  }

  /** Under a total order there is only one sorted arrangement of a multiset. */
  lemma {:induction false} SortedIsUnique<T(!new)>(a: seq<T>, b: seq<T>, leq: (T, T) -> bool)
    requires IsTotalPreorder(leq) && IsAntisymmetric(leq)
    requires IsSorted(a, leq) && IsSorted(b, leq) && multiset(a) == multiset(b)
    ensures a == b
  {
    assert |a| == |multiset(a)| == |multiset(b)| == |b|;
    if a != [] {
      SortedHeadIsLeast(b, a[0], leq);
      SortedHeadIsLeast(a, b[0], leq);
      TailMultiset(a);
      TailMultiset(b);
      SortedIsUnique(a[1..], b[1..], leq);
      assert a == [a[0]] + a[1..] && b == [b[0]] + b[1..];
    }
  }
}

/** Sums, filters and projections over sequences: the vocabulary in which the balance
    laws of a transaction are stated. */
module SeqSums {

  function Sum<T(!new)>(s: seq<T>, f: T -> int): int {
    if s == [] then 0 else f(s[0]) + Sum(s[1..], f)
  }

  function Map<T, U>(s: seq<T>, f: T -> U): (r: seq<U>)
    ensures |r| == |s|
    ensures forall i :: 0 <= i < |s| ==> r[i] == f(s[i])
  {
    seq(|s|, i requires 0 <= i < |s| => f(s[i]))
  }

  function Filter<T(!new)>(s: seq<T>, p: T -> bool): (r: seq<T>)
    ensures |r| <= |s|
    ensures forall x :: x in r <==> x in s && p(x)
  {
    if s == [] then []
    else
      var rest := Filter(s[1..], p);
      assert s == [s[0]] + s[1..];
      if p(s[0]) then [s[0]] + rest else rest
  }

  function RemoveAt<T>(s: seq<T>, i: nat): seq<T>
    requires i < |s|
  {
    s[..i] + s[i+1..]
  }

  lemma RemoveAtCounts<T>(s: seq<T>, i: nat)
    requires i < |s|
    ensures multiset(s) == multiset{s[i]} + multiset(RemoveAt(s, i))
    ensures multiset(RemoveAt(s, i)) == multiset(s) - multiset{s[i]}
  {
    assert s == s[..i] + [s[i]] + s[i+1..];
  }

  /** The elements in order of first appearance: a JavaScript set filled in order. */
  function Dedup<T(==,!new)>(s: seq<T>): (r: seq<T>)
    ensures Distinct(r)
    ensures forall x :: x in r <==> x in s
  {
    if s == [] then []
    else
      var init := s[..|s|-1];
      var last := s[|s|-1];
      assert s == init + [last];
      var r := Dedup(init);
      if last in r then r else r + [last]
  }

  /** A duplicate-free list without one element. */
  function Without<T(==,!new)>(s: seq<T>, t: T): (r: seq<T>)
    requires Distinct(s)
    ensures Distinct(r)
    ensures forall x :: x in r <==> x in s && x != t
  {
    if s == [] then []
    else
      var rest := Without(s[1..], t);
      assert s == [s[0]] + s[1..];
      assert s[0] !in s[1..];
      if s[0] == t then rest else [s[0]] + rest
  }

  /** One more than the first position of an element, or zero. */
  function Position<T(==)>(s: seq<T>, t: T): (i: nat)
    ensures t in s ==> 1 <= i <= |s| && s[i - 1] == t
    ensures t !in s ==> i == 0
  {
    if s == [] then 0
    else if s[0] == t then 1
    else
      var i := Position(s[1..], t);
      assert s == [s[0]] + s[1..];
      if i == 0 then 0 else i + 1
  }

  ghost predicate Distinct<T>(s: seq<T>) {
    forall i, j :: 0 <= i < j < |s| ==> s[i] != s[j]
  }

  /** One for each element with a property. */
  function One<T>(p: T -> bool): T -> int { (x: T) => if p(x) then 1 else 0 }

  function Count<T(!new)>(s: seq<T>, p: T -> bool): int { Sum(s, One(p)) }

  lemma {:induction false} SumAppend<T(!new)>(a: seq<T>, b: seq<T>, f: T -> int)
    ensures Sum(a + b, f) == Sum(a, f) + Sum(b, f)
  {
    if a == [] {
      assert a + b == b;
    } else {
      assert (a + b)[1..] == a[1..] + b;
      SumAppend(a[1..], b, f);
    }
  }

  lemma SumPush<T(!new)>(a: seq<T>, x: T, f: T -> int)
    ensures Sum(a + [x], f) == Sum(a, f) + f(x)
  {
    SumAppend(a, [x], f);
    assert [x][1..] == [];
  }

  lemma SumSplitAt<T(!new)>(s: seq<T>, i: nat, f: T -> int)
    requires i < |s|
    ensures Sum(s, f) == Sum(s[..i], f) + f(s[i]) + Sum(s[i+1..], f)
  {
    SumAppend(s[..i+1], s[i+1..], f);
    SumPush(s[..i], s[i], f);
    assert s[..i+1] + s[i+1..] == s && s[..i] + [s[i]] == s[..i+1];
  }

  /** A sum does not depend on the order of its terms. */
  lemma {:induction false} SumPermutation<T(!new)>(a: seq<T>, b: seq<T>, f: T -> int)
    requires multiset(a) == multiset(b)
    ensures Sum(a, f) == Sum(b, f)
  {
    if a == [] {
      assert |b| == |multiset(b)| == 0;
    } else {
      assert a[0] in multiset(b);
      var i :| 0 <= i < |b| && b[i] == a[0];
      RemoveAtCounts(a, 0);
      RemoveAtCounts(b, i);
      assert RemoveAt(a, 0) == a[1..];
      SumPermutation(a[1..], RemoveAt(b, i), f);
      SumSplitAt(b, i, f);
      SumAppend(b[..i], b[i+1..], f);
    }
  }

  lemma {:induction false} SumZero<T(!new)>(s: seq<T>, f: T -> int)
    requires forall x :: x in s ==> f(x) == 0
    ensures Sum(s, f) == 0
  {
    if s != [] {
      assert s[0] in s;
      assert forall x :: x in s[1..] ==> x in s;
      SumZero(s[1..], f);
    }
  }

  lemma {:induction false} SumCongruent<T(!new)>(s: seq<T>, f: T -> int, g: T -> int)
    requires forall x :: x in s ==> f(x) == g(x)
    ensures Sum(s, f) == Sum(s, g)
  {
    if s != [] {
      assert s[0] in s;
      assert forall x :: x in s[1..] ==> x in s;
      SumCongruent(s[1..], f, g);
    }
  }

  lemma {:induction false} SumNonNegative<T(!new)>(s: seq<T>, f: T -> int)
    requires forall x :: x in s ==> f(x) >= 0
    ensures Sum(s, f) >= 0
  {
    if s != [] {
      assert s[0] in s;
      assert forall x :: x in s[1..] ==> x in s;
      SumNonNegative(s[1..], f);
    }
  }

  /** A sum of amounts is positive exactly when one of them is. */
  lemma {:induction false} SumPositive<T(!new)>(s: seq<T>, f: T -> int)
    requires forall x :: x in s ==> f(x) >= 0
    ensures Sum(s, f) > 0 <==> exists x :: x in s && f(x) > 0
  {
    if s != [] {
      assert s == [s[0]] + s[1..];
      SumNonNegative(s[1..], f);
      SumPositive(s[1..], f);
    }
  }

  /** Elementwise related sequences of different types have equal sums. */
  lemma {:induction false} SumPointwise<T(!new), U(!new)>(a: seq<T>, b: seq<U>, f: T -> int, g: U -> int)
    requires |a| == |b|
    requires forall i :: 0 <= i < |a| ==> f(a[i]) == g(b[i])
    ensures Sum(a, f) == Sum(b, g)
  {
    if a != [] {
      assert forall i :: 0 <= i < |a[1..]| ==> a[1..][i] == a[i+1] && b[1..][i] == b[i+1];
      SumPointwise(a[1..], b[1..], f, g);
    }
  }

  lemma {:induction false} FilterAppend<T(!new)>(a: seq<T>, b: seq<T>, p: T -> bool)
    ensures Filter(a + b, p) == Filter(a, p) + Filter(b, p)
  {
    if a == [] {
      assert a + b == b;
    } else {
      assert (a + b)[1..] == a[1..] + b;
      FilterAppend(a[1..], b, p);
    }
  }

  /** What a filter keeps and what its complement keeps add up to the whole. */
  lemma {:induction false} SumFilterSplit<T(!new)>(s: seq<T>, p: T -> bool, q: T -> bool, f: T -> int)
    requires forall x :: x in s ==> q(x) == !p(x)
    ensures Sum(s, f) == Sum(Filter(s, p), f) + Sum(Filter(s, q), f)
  {
    if s != [] {
      assert s[0] in s && forall x :: x in s[1..] ==> x in s;
      SumFilterSplit(s[1..], p, q, f);
      assert ([s[0]] + Filter(s[1..], p))[1..] == Filter(s[1..], p);
      assert ([s[0]] + Filter(s[1..], q))[1..] == Filter(s[1..], q);
    }
  }

  lemma {:induction false} FilterNone<T(!new)>(s: seq<T>, p: T -> bool)
    requires forall x :: x in s ==> !p(x)
    ensures Filter(s, p) == []
  {
    if s != [] {
      assert s[0] in s && forall x :: x in s[1..] ==> x in s;
      FilterNone(s[1..], p);
    }
  }

  lemma FilterPush<T(!new)>(s: seq<T>, x: T, p: T -> bool)
    ensures Filter(s + [x], p) == if p(x) then Filter(s, p) + [x] else Filter(s, p)
  {
    FilterAppend(s, [x], p);
    assert [x][1..] == [];
    assert Filter(s, p) + [] == Filter(s, p);
  }

  lemma MapPush<T(!new), U(!new)>(s: seq<T>, x: T, f: T -> U)
    ensures Map(s + [x], f) == Map(s, f) + [f(x)]
  {
  }

  lemma {:induction false} FilterPermutation<T(!new)>(a: seq<T>, b: seq<T>, p: T -> bool)
    requires multiset(a) == multiset(b)
    ensures multiset(Filter(a, p)) == multiset(Filter(b, p))
  {
    FilterCounts(a, p);
    FilterCounts(b, p);
    forall x ensures multiset(Filter(a, p))[x] == multiset(Filter(b, p))[x] {
      assert multiset(a)[x] == multiset(b)[x];
    }
  }

  lemma {:induction false} FilterCounts<T(!new)>(s: seq<T>, p: T -> bool)
    ensures forall x :: multiset(Filter(s, p))[x] == if p(x) then multiset(s)[x] else 0
  {
    if s != [] {
      FilterCounts(s[1..], p);
      assert s == [s[0]] + s[1..];
      assert multiset(s) == multiset{s[0]} + multiset(s[1..]);
      assert multiset([s[0]] + Filter(s[1..], p)) == multiset{s[0]} + multiset(Filter(s[1..], p));
    }
  }

  lemma DistinctAppend<T(!new)>(a: seq<T>, b: seq<T>)
    requires Distinct(a) && Distinct(b)
    requires forall x :: x in a ==> x !in b
    ensures Distinct(a + b)
  {
    forall i, j | 0 <= i < j < |a + b| ensures (a + b)[i] != (a + b)[j] {
      if i < |a| <= j {
        assert a[i] in a && b[j - |a|] in b;
      }
    }
  }

  /** A sequence that holds nothing twice has pairwise different elements, and conversely. */
  lemma DistinctFromCounts<T(!new)>(s: seq<T>)
    requires forall x :: multiset(s)[x] <= 1
    ensures Distinct(s)
  {
    forall i, j | 0 <= i < j < |s| ensures s[i] != s[j] {
      assert s == s[..j] + [s[j]] + s[j+1..];
      assert multiset(s)[s[j]] >= multiset(s[..j])[s[j]] + 1;
      assert s[j] !in s[..j];
      assert s[i] == s[..j][i];
    }
  }

  lemma {:induction false} MapPermutation<T(!new), U(!new)>(a: seq<T>, b: seq<T>, f: T -> U)
    requires multiset(a) == multiset(b)
    ensures multiset(Map(a, f)) == multiset(Map(b, f))
  {
    if a == [] {
      assert |b| == |multiset(b)| == 0;
    } else {
      assert a[0] in multiset(b);
      var i :| 0 <= i < |b| && b[i] == a[0];
      RemoveAtCounts(a, 0);
      RemoveAtCounts(b, i);
      MapPermutation(RemoveAt(a, 0), RemoveAt(b, i), f);
      MapRemoveAt(a, 0, f);
      MapRemoveAt(b, i, f);
    }
  }

  lemma MapRemoveAt<T(!new), U(!new)>(s: seq<T>, i: nat, f: T -> U)
    requires i < |s|
    ensures multiset(Map(s, f)) == multiset{f(s[i])} + multiset(Map(RemoveAt(s, i), f))
  {
    RemoveAtCounts(Map(s, f), i);
    assert Map(RemoveAt(s, i), f) == RemoveAt(Map(s, f), i);
  }

  lemma {:induction false} DistinctCounts<T(!new)>(s: seq<T>)
    requires Distinct(s)
    ensures forall x :: multiset(s)[x] <= 1
  {
    if s != [] {
      DistinctCounts(s[1..]);
      assert s == [s[0]] + s[1..];
      assert s[0] !in s[1..];
    }
  }

  lemma DistinctPermutation<T(!new)>(a: seq<T>, b: seq<T>)
    requires multiset(a) == multiset(b) && Distinct(a)
    ensures Distinct(b)
  {
    DistinctCounts(a);
    DistinctFromCounts(b);
  }
}

/** Containers and sequence folds shared by every part of the wallet model. */
module Common {

  datatype Option<+T> = None | Some(value: T)

  datatype Result<+T, +E> = Success(value: T) | Failure(error: E)

  /** Sum of f over the elements of xs. */
  function Sum<T>(xs: seq<T>, f: T -> int): int
  {
    if xs == [] then 0 else Sum(xs[..|xs| - 1], f) + f(xs[|xs| - 1])
  }

  /** The elements of xs that satisfy p, in order. */
  function Filter<T>(xs: seq<T>, p: T -> bool): seq<T>
  {
    if xs == [] then []
    else Filter(xs[..|xs| - 1], p) + (if p(xs[|xs| - 1]) then [xs[|xs| - 1]] else [])
  }

  ghost predicate Distinct<T>(xs: seq<T>)
  {
    forall i, j | 0 <= i < j < |xs| :: xs[i] != xs[j]
  }

  lemma SumAppend<T>(xs: seq<T>, x: T, f: T -> int)
    ensures Sum(xs + [x], f) == Sum(xs, f) + f(x)
  {
    assert (xs + [x])[..|xs|] == xs;
  }

  lemma {:induction false} SumConcat<T>(xs: seq<T>, ys: seq<T>, f: T -> int)
    ensures Sum(xs + ys, f) == Sum(xs, f) + Sum(ys, f)
  {
    if ys == [] {
      assert xs + ys == xs;
    } else {
      var k := |ys| - 1;
      SumConcat(xs, ys[..k], f);
      assert (xs + ys)[..|xs + ys| - 1] == xs + ys[..k];
    }
  }

  lemma {:induction false} SumAgree<T>(xs: seq<T>, f: T -> int, g: T -> int)
    requires forall x | x in xs :: f(x) == g(x)
    ensures Sum(xs, f) == Sum(xs, g)
  {
    if xs != [] {
      SumAgree(xs[..|xs| - 1], f, g);
    }
  }

  lemma {:induction false} SumPointwise<T>(xs: seq<T>, ys: seq<T>, f: T -> int)
    requires |xs| == |ys| && forall i | 0 <= i < |xs| :: f(xs[i]) == f(ys[i])
    ensures Sum(xs, f) == Sum(ys, f)
  {
    if xs != [] {
      SumPointwise(xs[..|xs| - 1], ys[..|ys| - 1], f);
    }
  }

  lemma {:induction false} SumMonotone<T>(xs: seq<T>, f: T -> int, g: T -> int)
    requires forall x | x in xs :: f(x) <= g(x)
    ensures Sum(xs, f) <= Sum(xs, g)
  {
    if xs != [] {
      SumMonotone(xs[..|xs| - 1], f, g);
    }
  }

  lemma {:induction false} SumAdditive<T>(xs: seq<T>, f: T -> int, g: T -> int, h: T -> int)
    requires forall x | x in xs :: h(x) == f(x) + g(x)
    ensures Sum(xs, h) == Sum(xs, f) + Sum(xs, g)
  {
    if xs != [] {
      SumAdditive(xs[..|xs| - 1], f, g, h);
    }
  }

  lemma {:induction false} SumNonNegative<T>(xs: seq<T>, f: T -> int)
    requires forall x | x in xs :: f(x) >= 0
    ensures Sum(xs, f) >= 0
  {
    if xs != [] {
      SumNonNegative(xs[..|xs| - 1], f);
    }
  }

  lemma {:induction false} SumZero<T>(xs: seq<T>, f: T -> int)
    requires forall x | x in xs :: f(x) == 0
    ensures Sum(xs, f) == 0
  {
    if xs != [] {
      SumZero(xs[..|xs| - 1], f);
    }
  }

  /** f and g differ at one index only: so do their sums, by the same amount. */
  lemma {:induction false} SumDifferAt<T>(xs: seq<T>, f: T -> int, g: T -> int, k: nat)
    requires k < |xs|
    requires forall i | 0 <= i < |xs| && i != k :: f(xs[i]) == g(xs[i])
    ensures Sum(xs, g) == Sum(xs, f) + g(xs[k]) - f(xs[k])
  {
    var n := |xs| - 1;
    if k == n {
      SumAgree(xs[..n], f, g);
    } else {
      SumDifferAt(xs[..n], f, g, k);
    }
  }

  lemma {:induction false} SumRemove<T>(xs: seq<T>, k: nat, f: T -> int)
    requires k < |xs|
    ensures Sum(xs, f) == Sum(xs[..k] + xs[k + 1..], f) + f(xs[k])
  {
    assert xs == xs[..k] + [xs[k]] + xs[k + 1..];
    SumConcat(xs[..k] + [xs[k]], xs[k + 1..], f);
    SumAppend(xs[..k], xs[k], f);
    SumConcat(xs[..k], xs[k + 1..], f);
  }

  lemma {:induction false} SumPermutation<T>(xs: seq<T>, ys: seq<T>, f: T -> int)
    requires multiset(xs) == multiset(ys)
    ensures Sum(xs, f) == Sum(ys, f)
    decreases |xs|
  {
    if xs == [] {
      assert |multiset(ys)| == 0;
    } else {
      var n := |xs| - 1;
      var x := xs[n];
      assert xs == xs[..n] + [x];
      assert x in multiset(ys);
      var k :| 0 <= k < |ys| && ys[k] == x;
      var rest := ys[..k] + ys[k + 1..];
      assert ys == ys[..k] + [x] + ys[k + 1..];
      assert multiset(rest) == multiset(ys) - multiset{x};
      assert multiset(xs[..n]) == multiset(xs) - multiset{x};
      SumPermutation(xs[..n], rest, f);
      SumRemove(ys, k, f);
    }
  }

  /** Some enumeration of a multiset. */
  ghost function SeqOf<T(!new)>(m: multiset<T>): (xs: seq<T>)
    ensures multiset(xs) == m
    decreases |m|
  {
    if m == multiset{} then []
    else
      var x :| x in m;
      SeqOf(m - multiset{x}) + [x]
  }

  lemma {:induction false} SumFilter<T>(xs: seq<T>, p: T -> bool, f: T -> int, g: T -> int)
    requires forall x | x in xs :: g(x) == if p(x) then f(x) else 0
    ensures Sum(Filter(xs, p), f) == Sum(xs, g)
  {
    if xs != [] {
      var n := |xs| - 1;
      SumFilter(xs[..n], p, f, g);
      if p(xs[n]) {
        SumAppend(Filter(xs[..n], p), xs[n], f);
      } else {
        assert Filter(xs, p) == Filter(xs[..n], p);
      }
    }
  }

  /** f on the elements satisfying p, zero elsewhere. */
  function Gate<T>(p: T -> bool, f: T -> int): T -> int
  {
    x => if p(x) then f(x) else 0
  }

  lemma SumGate<T>(xs: seq<T>, p: T -> bool, f: T -> int)
    ensures Sum(Filter(xs, p), f) == Sum(xs, Gate(p, f))
  {
    SumFilter(xs, p, f, Gate(p, f));
  }

  /** A part of xs whose elements all satisfy p weighs no more than everything in xs satisfying p. */
  lemma PartBelowGate<T>(part: seq<T>, rest: seq<T>, xs: seq<T>, p: T -> bool, f: T -> int)
    requires multiset(part) + multiset(rest) == multiset(xs)
    requires forall x | x in part :: p(x)
    requires forall x | x in rest :: f(x) >= 0
    ensures Sum(part, f) <= Sum(xs, Gate(p, f))
  {
    assert multiset(part + rest) == multiset(part) + multiset(rest);
    SumPermutation(part + rest, xs, Gate(p, f));
    SumConcat(part, rest, Gate(p, f));
    SumAgree(part, f, Gate(p, f));
    SumNonNegative(rest, Gate(p, f));
  }

  lemma {:induction false} FilterCount<T>(xs: seq<T>, p: T -> bool, x: T)
    ensures multiset(Filter(xs, p))[x] == if p(x) then multiset(xs)[x] else 0
  {
    if xs != [] {
      var n := |xs| - 1;
      FilterCount(xs[..n], p, x);
      assert xs == xs[..n] + [xs[n]];
    }
  }

  lemma FilterMember<T>(xs: seq<T>, p: T -> bool, x: T)
    ensures x in Filter(xs, p) <==> x in xs && p(x)
  {
    FilterCount(xs, p, x);
    assert x in Filter(xs, p) <==> multiset(Filter(xs, p))[x] > 0;
    assert x in xs <==> multiset(xs)[x] > 0;
  }

  /** Filtering by a disjoint union keeps what each part keeps. */
  lemma {:induction false} FilterSplit<T>(xs: seq<T>, p: T -> bool, q: T -> bool, r: T -> bool)
    requires forall x | x in xs :: p(x) == (q(x) || r(x)) && !(q(x) && r(x))
    ensures multiset(Filter(xs, p)) == multiset(Filter(xs, q)) + multiset(Filter(xs, r))
  {
    if xs != [] {
      FilterSplit(xs[..|xs| - 1], p, q, r);
    }
  }

  lemma {:induction false} FilterAgree<T>(xs: seq<T>, p: T -> bool, q: T -> bool)
    requires forall x | x in xs :: p(x) == q(x)
    ensures Filter(xs, p) == Filter(xs, q)
  {
    if xs != [] {
      FilterAgree(xs[..|xs| - 1], p, q);
    }
  }

  lemma {:induction false} FilterNone<T>(xs: seq<T>, p: T -> bool)
    requires forall x | x in xs :: !p(x)
    ensures Filter(xs, p) == []
  {
    if xs != [] {
      FilterNone(xs[..|xs| - 1], p);
    }
  }

  lemma {:induction false} FilterAll<T>(xs: seq<T>, p: T -> bool)
    requires forall x | x in xs :: p(x)
    ensures Filter(xs, p) == xs
  {
    if xs != [] {
      var n := |xs| - 1;
      FilterAll(xs[..n], p);
      assert Filter(xs, p) == xs[..n] + [xs[n]];
      assert xs == xs[..n] + [xs[n]];
    }
  }

  lemma {:induction false} FilterConcat<T>(xs: seq<T>, ys: seq<T>, p: T -> bool)
    ensures Filter(xs + ys, p) == Filter(xs, p) + Filter(ys, p)
  {
    if ys == [] {
      assert xs + ys == xs;
    } else {
      FilterConcat(xs, ys[..|ys| - 1], p);
      assert (xs + ys)[..|xs + ys| - 1] == xs + ys[..|ys| - 1];
    }
  }

  lemma FilterOne<T>(x: T, p: T -> bool)
    ensures Filter([x], p) == if p(x) then [x] else []
  {
    assert [x][..0] == [];
  }

  lemma FilterTwo<T>(x: T, y: T, p: T -> bool)
    ensures Filter([x, y], p) == (if p(x) then [x] else []) + (if p(y) then [y] else [])
  {
    FilterOne(x, p);
    assert [x, y][..1] == [x];
  }

  lemma FilterThree<T>(x: T, y: T, z: T, p: T -> bool)
    ensures Filter([x, y, z], p)
         == (if p(x) then [x] else []) + (if p(y) then [y] else []) + (if p(z) then [z] else [])
  {
    FilterTwo(x, y, p);
    assert [x, y, z][..2] == [x, y];
  }

  lemma SumOne<T>(x: T, f: T -> int)
    ensures Sum([x], f) == f(x)
  {
    assert [x][..0] == [];
  }

  lemma SumTwo<T>(x: T, y: T, f: T -> int)
    ensures Sum([x, y], f) == f(x) + f(y)
  {
    SumOne(x, f);
    assert [x, y][..1] == [x];
  }

  lemma {:induction false} DistinctCount<T>(xs: seq<T>, x: T)
    requires Distinct(xs)
    ensures multiset(xs)[x] == if x in xs then 1 else 0
  {
    if xs != [] {
      var n := |xs| - 1;
      assert xs == xs[..n] + [xs[n]];
      DistinctCount(xs[..n], x);
    }
  }

  /** Distinct members of a sequence are no more than it has. */
  lemma {:induction false} DistinctFits<T>(part: seq<T>, xs: seq<T>)
    requires Distinct(part) && forall x | x in part :: x in xs
    ensures |part| <= |xs|
    decreases |part|
  {
    if part != [] {
      var n := |part| - 1;
      assert part[n] in xs;
      var k :| 0 <= k < |xs| && xs[k] == part[n];
      var others := xs[..k] + xs[k + 1..];
      forall x | x in part[..n]
        ensures x in others
      {
        var i :| 0 <= i < n && part[i] == x;
        assert part[i] in xs;
        var j :| 0 <= j < |xs| && xs[j] == x;
        assert j != k;
        assert others[if j < k then j else j - 1] == x;
      }
      DistinctFits(part[..n], others);
    }
  }

  /** A part of a distinct sequence is distinct, with the same members. */
  lemma DistinctPart<T>(part: seq<T>, xs: seq<T>)
    requires Distinct(xs) && multiset(part) <= multiset(xs)
    ensures Distinct(part)
    ensures forall x | x in part :: x in xs
  {
    forall x | x in part
      ensures x in xs
    {
      assert x in multiset(part);
      assert x in multiset(xs);
    }
    forall i, j | 0 <= i < j < |part|
      ensures part[i] != part[j]
    {
      var x := part[j];
      assert part == part[..j] + ([x] + part[j + 1..]);
      assert multiset(part) == multiset(part[..j]) + multiset([x] + part[j + 1..]);
      assert multiset([x] + part[j + 1..]) == multiset{x} + multiset(part[j + 1..]);
      DistinctCount(xs, x);
      assert multiset(part[..j])[x] == 0;
      assert part[i] in multiset(part[..j]) by {
        assert part[i] == part[..j][i];
      }
    }
  }

  /** xs is ys with some elements left out. */
  ghost predicate Subsequence<T>(xs: seq<T>, ys: seq<T>)
  {
    xs == [] ||
    (ys != [] &&
     ((xs[|xs| - 1] == ys[|ys| - 1] && Subsequence(xs[..|xs| - 1], ys[..|ys| - 1]))
      || Subsequence(xs, ys[..|ys| - 1])))
  }

  lemma SubsequenceStep<T>(xs: seq<T>, ys: seq<T>, y: T)
    requires Subsequence(xs, ys)
    ensures Subsequence(xs, ys + [y])
    ensures Subsequence(xs + [y], ys + [y])
  {
    assert (ys + [y])[..|ys|] == ys && (xs + [y])[..|xs|] == xs;
  }

  lemma {:induction false} SubsequenceOfPrefix<T>(xs: seq<T>, ys: seq<T>, k: nat)
    requires k <= |ys| && Subsequence(xs, ys[..k])
    ensures Subsequence(xs, ys)
    decreases |ys|
  {
    if k < |ys| {
      assert ys[..|ys| - 1][..k] == ys[..k];
      SubsequenceOfPrefix(xs, ys[..|ys| - 1], k);
      assert ys == ys[..|ys| - 1] + [ys[|ys| - 1]];
      SubsequenceStep(xs, ys[..|ys| - 1], ys[|ys| - 1]);
    } else {
      assert ys[..k] == ys;
    }
  }

  lemma {:induction false} SubsequenceIsPart<T>(xs: seq<T>, ys: seq<T>)
    requires Subsequence(xs, ys)
    ensures multiset(xs) <= multiset(ys)
    decreases |ys|
  {
    if xs != [] {
      var m := |ys| - 1;
      assert ys == ys[..m] + [ys[m]];
      assert xs == xs[..|xs| - 1] + [xs[|xs| - 1]];
      if xs[|xs| - 1] == ys[m] && Subsequence(xs[..|xs| - 1], ys[..m]) {
        SubsequenceIsPart(xs[..|xs| - 1], ys[..m]);
      } else {
        SubsequenceIsPart(xs, ys[..m]);
      }
    }
  }

  lemma {:induction false} FilterIsPart<T>(xs: seq<T>, p: T -> bool)
    ensures Subsequence(Filter(xs, p), xs)
  {
    if xs != [] {
      var n := |xs| - 1;
      FilterIsPart(xs[..n], p);
      SubsequenceStep(Filter(xs[..n], p), xs[..n], xs[n]);
      assert xs[..n] + [xs[n]] == xs;
      assert Filter(xs, p) == if p(xs[n]) then Filter(xs[..n], p) + [xs[n]] else Filter(xs[..n], p);
    }
  }

  lemma SubsequenceMembers<T>(xs: seq<T>, ys: seq<T>)
    requires Subsequence(xs, ys)
    ensures forall x | x in xs :: x in ys
  {
    SubsequenceIsPart(xs, ys);
    forall x | x in xs
      ensures x in ys
    {
      assert x in multiset(ys);
    }
  }

  /** Every element stands in the relation to every later one. */
  ghost predicate Pairwise<T(!new)>(xs: seq<T>, r: (T, T) -> bool)
  {
    forall i, j | 0 <= i < j < |xs| :: r(xs[i], xs[j])
  }

  lemma {:induction false} SubsequencePairwise<T(!new)>(xs: seq<T>, ys: seq<T>, r: (T, T) -> bool)
    requires Subsequence(xs, ys) && Pairwise(ys, r)
    ensures Pairwise(xs, r)
    decreases |ys|
  {
    if xs != [] {
      var n, m := |xs| - 1, |ys| - 1;
      if xs[n] == ys[m] && Subsequence(xs[..n], ys[..m]) {
        SubsequencePairwise(xs[..n], ys[..m], r);
        SubsequenceMembers(xs[..n], ys[..m]);
        LastRelated(xs[..n], ys, r);
        OneMoreRelated(xs[..n], xs[n], r);
        assert xs == xs[..n] + [xs[n]];
      } else {
        SubsequencePairwise(xs, ys[..m], r);
      }
    }
  }

  lemma LastRelated<T(!new)>(xs: seq<T>, ys: seq<T>, r: (T, T) -> bool)
    requires Pairwise(ys, r) && ys != [] && forall x | x in xs :: x in ys[..|ys| - 1]
    ensures forall x | x in xs :: r(x, ys[|ys| - 1])
  {
    forall x | x in xs
      ensures r(x, ys[|ys| - 1])
    {
      var k :| 0 <= k < |ys| - 1 && ys[..|ys| - 1][k] == x;
      assert ys[k] == x;
    }
  }

  lemma OneMoreRelated<T(!new)>(xs: seq<T>, x: T, r: (T, T) -> bool)
    requires Pairwise(xs, r) && forall y | y in xs :: r(y, x)
    ensures Pairwise(xs + [x], r)
  {
  }

  function ByKey<T>(key: T -> nat): (T, T) -> bool
  {
    (x: T, y: T) => key(x) <= key(y)
  }

  lemma SubsequenceSorted<T(!new)>(xs: seq<T>, ys: seq<T>, key: T -> nat)
    requires Subsequence(xs, ys) && SortedByKey(ys, key)
    ensures SortedByKey(xs, key)
  {
    SubsequencePairwise(xs, ys, ByKey(key));
    forall i, j | 0 <= i < j < |xs|
      ensures key(xs[i]) <= key(xs[j])
    {
      assert ByKey(key)(xs[i], xs[j]);
    }
  }

  /** Insert x after every element whose key is not greater, as a stable sort does. */
  function InsertByKey<T>(x: T, xs: seq<T>, key: T -> nat): seq<T>
  {
    if xs == [] || key(xs[|xs| - 1]) <= key(x) then xs + [x]
    else InsertByKey(x, xs[..|xs| - 1], key) + [xs[|xs| - 1]]
  }

  /** Stable sort by ascending key. */
  function SortByKey<T>(xs: seq<T>, key: T -> nat): seq<T>
  {
    if xs == [] then [] else InsertByKey(xs[|xs| - 1], SortByKey(xs[..|xs| - 1], key), key)
  }

  ghost predicate SortedByKey<T>(xs: seq<T>, key: T -> nat)
  {
    forall i, j | 0 <= i < j < |xs| :: key(xs[i]) <= key(xs[j])
  }

  lemma {:induction false} InsertByKeyPermutes<T>(x: T, xs: seq<T>, key: T -> nat)
    ensures multiset(InsertByKey(x, xs, key)) == multiset(xs) + multiset{x}
  {
    if xs != [] {
      var n := |xs| - 1;
      assert xs == xs[..n] + [xs[n]];
      InsertByKeyPermutes(x, xs[..n], key);
    }
  }

  lemma {:induction false} InsertByKeyBound<T>(x: T, xs: seq<T>, key: T -> nat, k: nat)
    requires key(x) <= k && forall i | 0 <= i < |xs| :: key(xs[i]) <= k
    ensures forall i | 0 <= i < |InsertByKey(x, xs, key)| :: key(InsertByKey(x, xs, key)[i]) <= k
  {
    if xs != [] && key(xs[|xs| - 1]) > key(x) {
      InsertByKeyBound(x, xs[..|xs| - 1], key, k);
    }
  }

  lemma {:induction false} InsertByKeySorts<T>(x: T, xs: seq<T>, key: T -> nat)
    requires SortedByKey(xs, key)
    ensures SortedByKey(InsertByKey(x, xs, key), key)
  {
    if xs != [] && key(xs[|xs| - 1]) > key(x) {
      var n := |xs| - 1;
      InsertByKeySorts(x, xs[..n], key);
      InsertByKeyBound(x, xs[..n], key, key(xs[n]));
    }
  }

  /** The sort used throughout is a sorted permutation of its input. */
  lemma {:induction false} SortByKeyCorrect<T>(xs: seq<T>, key: T -> nat)
    ensures multiset(SortByKey(xs, key)) == multiset(xs)
    ensures SortedByKey(SortByKey(xs, key), key)
  {
    if xs != [] {
      var n := |xs| - 1;
      assert xs == xs[..n] + [xs[n]];
      SortByKeyCorrect(xs[..n], key);
      InsertByKeyPermutes(xs[n], SortByKey(xs[..n], key), key);
      InsertByKeySorts(xs[n], SortByKey(xs[..n], key), key);
    }
  }

  /** x comes before y by one key, and by another one where the first is equal. */
  function ByBoth<T>(major: T -> nat, minor: T -> nat): (T, T) -> bool
  {
    (x: T, y: T) => major(x) < major(y) || (major(x) == major(y) && minor(x) <= minor(y))
  }

  lemma InsertByKeyMembers<T>(x: T, xs: seq<T>, key: T -> nat)
    ensures forall y :: y in InsertByKey(x, xs, key) <==> y in xs || y == x
  {
    InsertByKeyPermutes(x, xs, key);
    SameMembers(InsertByKey(x, xs, key), xs + [x]);
  }

  lemma {:induction false} InsertKeepsBoth<T(!new)>(x: T, xs: seq<T>, major: T -> nat, minor: T -> nat)
    requires Pairwise(xs, ByBoth(major, minor)) && forall y | y in xs :: minor(y) <= minor(x)
    ensures Pairwise(InsertByKey(x, xs, major), ByBoth(major, minor))
  {
    if xs == [] {
    } else if major(xs[|xs| - 1]) <= major(x) {
      AllBelowLast(xs, major, minor);
      OneMoreRelated(xs, x, ByBoth(major, minor));
    } else {
      var n := |xs| - 1;
      InsertKeepsBoth(x, xs[..n], major, minor);
      InsertByKeyMembers(x, xs[..n], major);
      LastRelated(xs[..n], xs, ByBoth(major, minor));
      OneMoreRelated(InsertByKey(x, xs[..n], major), xs[n], ByBoth(major, minor));
    }
  }

  lemma AllBelowLast<T(!new)>(xs: seq<T>, major: T -> nat, minor: T -> nat)
    requires xs != [] && Pairwise(xs, ByBoth(major, minor))
    ensures forall y | y in xs :: major(y) <= major(xs[|xs| - 1])
  {
    forall i | 0 <= i < |xs| - 1
      ensures major(xs[i]) <= major(xs[|xs| - 1])
    {
      assert ByBoth(major, minor)(xs[i], xs[|xs| - 1]);
    }
  }

  /** The sort is stable: elements with equal keys stay in the order they had. */
  lemma {:induction false} SortIsStable<T(!new)>(xs: seq<T>, major: T -> nat, minor: T -> nat)
    requires SortedByKey(xs, minor)
    ensures Pairwise(SortByKey(xs, major), ByBoth(major, minor))
  {
    if xs != [] {
      var n := |xs| - 1;
      SortIsStable(xs[..n], major, minor);
      SortByKeyCorrect(xs[..n], major);
      SameMembers(SortByKey(xs[..n], major), xs[..n]);
      forall y | y in xs[..n]
        ensures minor(y) <= minor(xs[n])
      {
        var k :| 0 <= k < n && xs[..n][k] == y;
        assert xs[k] == y;
      }
      InsertKeepsBoth(xs[n], SortByKey(xs[..n], major), major, minor);
    }
  }

  lemma SameMembers<T>(xs: seq<T>, ys: seq<T>)
    requires multiset(xs) == multiset(ys)
    ensures forall x :: x in xs <==> x in ys
    ensures |xs| == |ys|
  {
    forall x
      ensures x in xs <==> x in ys
    {
      assert x in xs <==> x in multiset(xs);
      assert x in ys <==> x in multiset(ys);
    }
    assert |xs| == |multiset(xs)|;
    assert |ys| == |multiset(ys)|;
  }
}

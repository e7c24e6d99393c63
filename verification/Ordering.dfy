/** Orders, sorting and filtering. `less` is always strict. */
module Ordering {

  // ----- Orders -----

  /** A strict weak order: what a sort by key needs. */
  ghost predicate StrictWeak<T(!new)>(less: (T, T) -> bool) {
    && (forall x :: !less(x, x))
    && (forall x, y, z :: less(x, y) && less(y, z) ==> less(x, z))
    && (forall x, y, z :: less(x, z) ==> less(x, y) || less(y, z))
  }

  ghost predicate StrictTotal<T(!new)>(less: (T, T) -> bool) {
    && StrictWeak(less)
    && (forall x, y :: less(x, y) || less(y, x) || x == y)
  }

  /** Strings by code point, as Python and a byte-ordered database column compare them. */
  predicate StrLess(a: string, b: string) {
    b != [] && (a == [] || a[0] < b[0] || (a[0] == b[0] && StrLess(a[1..], b[1..])))
  }

  lemma {:induction false} StrLessConnected(a: string, b: string)
    ensures StrLess(a, b) || StrLess(b, a) || a == b
    ensures !(StrLess(a, b) && StrLess(b, a)) && !StrLess(a, a)
  {
    if a != [] {
      StrLessConnected(a[1..], a[1..]);
      if b != [] {
        StrLessConnected(a[1..], b[1..]);
        assert a == [a[0]] + a[1..] && b == [b[0]] + b[1..];
      }
    }
  }

  lemma {:induction false} StrLessTransitive(a: string, b: string, c: string)
    requires StrLess(a, b) && StrLess(b, c)
    ensures StrLess(a, c)
  {
    if a != [] && a[0] == b[0] && b[0] == c[0] {
      StrLessTransitive(a[1..], b[1..], c[1..]);
    }
  }

  lemma StrLessIsTotal()
    ensures StrictTotal(StrLess)
  {
    forall a, b, c ensures StrLess(a, b) && StrLess(b, c) ==> StrLess(a, c) {
      if StrLess(a, b) && StrLess(b, c) {
        StrLessTransitive(a, b, c);
      }
    }
    forall a, b ensures StrLess(a, b) || StrLess(b, a) || a == b
      ensures !(StrLess(a, b) && StrLess(b, a)) && !StrLess(a, a)
    {
      StrLessConnected(a, b);
    }
    forall a, b, c | StrLess(a, c) ensures StrLess(a, b) || StrLess(b, c) {
      if StrLess(c, b) {
        StrLessTransitive(a, c, b);
      }
    }
  }

  // ----- Sorted sequences -----

  ghost predicate Sorted<T>(less: (T, T) -> bool, s: seq<T>) {
    forall i, j :: 0 <= i < j < |s| ==> !less(s[j], s[i])
  }

  ghost predicate Ascending<T>(less: (T, T) -> bool, s: seq<T>) {
    forall i, j :: 0 <= i < j < |s| ==> less(s[i], s[j])
  }

  /** Stable insertion sort. */
  function Sort<T>(less: (T, T) -> bool, s: seq<T>): seq<T> {
    if s == [] then [] else Insert(less, s[0], Sort(less, s[1..]))
  }

  function Insert<T>(less: (T, T) -> bool, x: T, s: seq<T>): seq<T> {
    if s == [] || !less(s[0], x) then [x] + s else [s[0]] + Insert(less, x, s[1..])
  }

  lemma {:induction false} InsertPermutes<T(!new)>(less: (T, T) -> bool, x: T, s: seq<T>)
    ensures multiset(Insert(less, x, s)) == multiset([x]) + multiset(s)
  {
    if s == [] || !less(s[0], x) {
      assert multiset([x] + s) == multiset([x]) + multiset(s);
    } else {
      InsertPermutes(less, x, s[1..]);
      assert s == [s[0]] + s[1..];
    }
  }

  lemma {:induction false} InsertKeeps<T(!new)>(less: (T, T) -> bool, x: T, s: seq<T>)
    requires StrictWeak(less) && Sorted(less, s)
    ensures Sorted(less, Insert(less, x, s))
    ensures multiset(Insert(less, x, s)) == multiset([x]) + multiset(s)
  {
    InsertPermutes(less, x, s);
    if s != [] && less(s[0], x) {
      var rest := Insert(less, x, s[1..]);
      InsertKeeps(less, x, s[1..]);
      forall y | y in rest ensures !less(y, s[0]) {
        assert y in multiset(rest);
        assert y == x || y in s[1..];
      }
    }
  }

  lemma {:induction false} SortSorts<T(!new)>(less: (T, T) -> bool, s: seq<T>)
    requires StrictWeak(less)
    ensures Sorted(less, Sort(less, s))
    ensures multiset(Sort(less, s)) == multiset(s)
    ensures |Sort(less, s)| == |s|
    ensures forall x :: x in Sort(less, s) <==> x in s
  {
    if s != [] {
      SortSorts(less, s[1..]);
      InsertKeeps(less, s[0], Sort(less, s[1..]));
      assert s == [s[0]] + s[1..];
    }
    SameMultiset(Sort(less, s), s);
  }

  lemma SameMultiset<T(!new)>(a: seq<T>, b: seq<T>)
    requires multiset(a) == multiset(b)
    ensures |a| == |b|
    ensures forall x :: x in a <==> x in b
  {
    assert |multiset(a)| == |a| && |multiset(b)| == |b|;
    forall x ensures x in a <==> x in b {
      assert x in a <==> x in multiset(a);
      assert x in b <==> x in multiset(b);
    }
  }

  /** Elements of `s` that the order does not separate are equal. */
  ghost predicate Separates<T(!new)>(less: (T, T) -> bool, s: seq<T>) {
    forall x, y :: x in s && y in s && !less(x, y) && !less(y, x) ==> x == y
  }

  lemma SameHead<T(!new)>(less: (T, T) -> bool, a: seq<T>, b: seq<T>)
    requires Separates(less, a) && Sorted(less, a) && Sorted(less, b)
    requires a != [] && multiset(a) == multiset(b)
    ensures b != [] && a[0] == b[0]
  {
    SameMultiset(a, b);
    assert a[0] in a && a[0] in b && b[0] in b && b[0] in a;
    var i :| 0 <= i < |a| && a[i] == b[0];
    var j :| 0 <= j < |b| && b[j] == a[0];
    assert i == 0 || !less(a[i], a[0]);
    assert j == 0 || !less(b[j], b[0]);
  }

  lemma SameTail<T>(a: seq<T>, b: seq<T>)
    requires a != [] && b != [] && a[0] == b[0] && multiset(a) == multiset(b)
    ensures multiset(a[1..]) == multiset(b[1..])
  {
    assert a == [a[0]] + a[1..] && b == [b[0]] + b[1..];
    assert multiset(a[1..]) == multiset(a) - multiset{a[0]};
    assert multiset(b[1..]) == multiset(b) - multiset{b[0]};
  }

  /** What is sorted is determined by its elements, if the order separates them. */
  lemma {:induction false} SortedUnique<T(!new)>(less: (T, T) -> bool, a: seq<T>, b: seq<T>)
    requires StrictWeak(less) && Separates(less, a) && Sorted(less, a) && Sorted(less, b)
    requires multiset(a) == multiset(b)
    ensures a == b
  {
    if a == [] {
      SameMultiset(a, b);
    } else {
      SameHead(less, a, b);
      SameTail(a, b);
      assert forall x :: x in a[1..] ==> x in a;
      SortedUnique(less, a[1..], b[1..]);
      assert a == [a[0]] + a[1..] && b == [b[0]] + b[1..];
    }
  }

  lemma SortForgetsOrder<T(!new)>(less: (T, T) -> bool, a: seq<T>, b: seq<T>)
    requires StrictWeak(less) && Separates(less, a) && multiset(a) == multiset(b)
    ensures Sort(less, a) == Sort(less, b)
  {
    SortSorts(less, a);
    SortSorts(less, b);
    SortedUnique(less, Sort(less, a), Sort(less, b));
  }

  /** A strictly ascending sequence is determined by its set of elements. */
  lemma {:induction false} AscendingUnique<T(!new)>(less: (T, T) -> bool, a: seq<T>, b: seq<T>)
    requires StrictWeak(less) && Ascending(less, a) && Ascending(less, b)
    requires forall x :: x in a <==> x in b
    ensures a == b
  {
    assert b != [] ==> b[0] in b;
    if a != [] {
      assert a[0] in a && a[0] in b;
      assert b[0] in b && b[0] in a;
      assert a[0] == b[0];
      assert a == [a[0]] + a[1..] && b == [b[0]] + b[1..];
      forall x ensures x in a[1..] <==> x in b[1..] {
        assert x in a[1..] ==> x in a && less(a[0], x) && x != a[0];
        assert x in b[1..] ==> x in b && less(b[0], x) && x != b[0];
      }
      AscendingUnique(less, a[1..], b[1..]);
    }
  }

  // ----- Filtering -----

  function Filter<T>(p: T -> bool, s: seq<T>): seq<T> {
    if s == [] then [] else (if p(s[0]) then [s[0]] else []) + Filter(p, s[1..])
  }

  lemma {:induction false} FilterCount<T>(p: T -> bool, s: seq<T>, x: T)
    ensures multiset(Filter(p, s))[x] == if p(x) then multiset(s)[x] else 0
  {
    if s != [] {
      FilterCount(p, s[1..], x);
      assert s == [s[0]] + s[1..];
    }
  }

  lemma FilterMembers<T(!new)>(p: T -> bool, s: seq<T>)
    ensures forall x :: x in Filter(p, s) <==> x in s && p(x)
  {
  }

  lemma FilterForgetsOrder<T(!new)>(p: T -> bool, a: seq<T>, b: seq<T>)
    requires multiset(a) == multiset(b)
    ensures multiset(Filter(p, a)) == multiset(Filter(p, b))
  {
    var m, n := multiset(Filter(p, a)), multiset(Filter(p, b));
    forall x ensures m[x] == n[x] {
      FilterCount(p, a, x);
      FilterCount(p, b, x);
    }
    assert m == n;
  }

  lemma {:induction false} FilterConcat<T>(p: T -> bool, a: seq<T>, b: seq<T>)
    ensures Filter(p, a + b) == Filter(p, a) + Filter(p, b)
    decreases |b|
  {
    if b == [] {
      assert a + b == a;
    } else {
      var front, x := b[..|b| - 1], b[|b| - 1];
      assert b == front + [x] && a + b == (a + front) + [x];
      FilterConcat(p, a, front);
      FilterSnoc(p, front, x);
      FilterSnoc(p, a + front, x);
    }
  }

  lemma {:induction false} FilterAll<T>(p: T -> bool, s: seq<T>)
    requires forall x :: x in s ==> p(x)
    ensures Filter(p, s) == s
  {
    if s != [] {
      FilterAll(p, s[1..]);
    }
  }

  lemma {:induction false} FilterNone<T>(p: T -> bool, s: seq<T>)
    requires forall x :: x in s ==> !p(x)
    ensures Filter(p, s) == []
  {
    if s != [] {
      FilterNone(p, s[1..]);
    }
  }

  lemma {:induction false} FilterCommutes<T>(p: T -> bool, q: T -> bool, s: seq<T>)
    ensures Filter(p, Filter(q, s)) == Filter(q, Filter(p, s))
  {
    if s != [] {
      FilterCommutes(p, q, s[1..]);
      FilterConcat(p, if q(s[0]) then [s[0]] else [], Filter(q, s[1..]));
      FilterConcat(q, if p(s[0]) then [s[0]] else [], Filter(p, s[1..]));
    }
  }

  function Not<T>(q: T -> bool): T -> bool { x => !q(x) }

  /** Putting what satisfies `q` first only reorders. */
  lemma {:induction false} FilterSplits<T>(q: T -> bool, s: seq<T>)
    ensures multiset(Filter(q, s) + Filter(Not(q), s)) == multiset(s)
  {
    if s != [] {
      FilterSplits(q, s[1..]);
      assert s == [s[0]] + s[1..];
    }
  }

  lemma MapMembers<T(!new), U(!new)>(f: T -> U, s: seq<T>)
    ensures forall x :: x in s ==> f(x) in Map(f, s)
    ensures forall y :: y in Map(f, s) ==> exists x :: x in s && f(x) == y
  {
  }

  lemma {:induction false} FilterSnoc<T>(p: T -> bool, s: seq<T>, x: T)
    ensures Filter(p, s + [x]) == Filter(p, s) + (if p(x) then [x] else [])
  {
    if s != [] {
      FilterSnoc(p, s[1..], x);
      assert (s + [x])[1..] == s[1..] + [x];
    }
  }

  function Map<T, U>(f: T -> U, s: seq<T>): (r: seq<U>)
    ensures |r| == |s| && forall i :: 0 <= i < |s| ==> r[i] == f(s[i])
  {
    seq(|s|, i requires 0 <= i < |s| => f(s[i]))
  }

  lemma MapFilterSnoc<T, U>(f: T -> U, p: T -> bool, s: seq<T>, i: nat)
    requires i < |s|
    ensures Map(f, Filter(p, s[..i + 1])) == Map(f, Filter(p, s[..i])) + (if p(s[i]) then [f(s[i])] else [])
  {
    assert s[..i + 1] == s[..i] + [s[i]];
    FilterSnoc(p, s[..i], s[i]);
  }

  function Take<T>(n: nat, s: seq<T>): seq<T> {
    if |s| <= n then s else s[..n]
  }

  // ----- Sums -----

  function Sum<T>(f: T -> real, s: seq<T>): real {
    if s == [] then 0.0 else Sum(f, s[..|s| - 1]) + f(s[|s| - 1])
  }

  lemma {:induction false} SumConcat<T>(f: T -> real, a: seq<T>, b: seq<T>)
    ensures Sum(f, a + b) == Sum(f, a) + Sum(f, b)
  {
    if b == [] {
      assert a + b == a;
    } else {
      assert (a + b)[..|a + b| - 1] == a + b[..|b| - 1];
      SumConcat(f, a, b[..|b| - 1]);
    }
  }

  lemma Without<T>(s: seq<T>, k: nat)
    requires k < |s|
    ensures multiset(s[..k] + s[k + 1..]) == multiset(s) - multiset{s[k]}
    ensures s == s[..k] + [s[k]] + s[k + 1..]
  {
    assert s == s[..k] + [s[k]] + s[k + 1..];
    assert multiset(s) == multiset(s[..k]) + multiset{s[k]} + multiset(s[k + 1..]);
  }

  /** Taking the last element of `a` out of both leaves equal multisets. */
  lemma RemoveLast<T(!new)>(a: seq<T>, b: seq<T>) returns (k: nat)
    requires a != [] && multiset(a) == multiset(b)
    ensures k < |b| && b[k] == a[|a| - 1]
    ensures multiset(a[..|a| - 1]) == multiset(b[..k] + b[k + 1..])
  {
    var n := |a| - 1;
    assert a[n] in multiset(a);
    k :| 0 <= k < |b| && b[k] == a[n];
    Without(a, n);
    Without(b, k);
    assert a[..n] + a[n + 1..] == a[..n];
  }

  lemma {:induction false} SumForgetsOrder<T(!new)>(f: T -> real, a: seq<T>, b: seq<T>)
    requires multiset(a) == multiset(b)
    ensures Sum(f, a) == Sum(f, b)
  {
    if a == [] {
      assert |multiset(b)| == |b|;
    } else {
      var k := RemoveLast(a, b);
      SumForgetsOrder(f, a[..|a| - 1], b[..k] + b[k + 1..]);
      SumWithout(f, b, k);
    }
  }

  lemma SumWithout<T>(f: T -> real, s: seq<T>, k: nat)
    requires k < |s|
    ensures Sum(f, s) == Sum(f, s[..k] + s[k + 1..]) + f(s[k])
  {
    Without(s, k);
    SumConcat(f, s[..k], s[k + 1..]);
    SumConcat(f, s[..k] + [s[k]], s[k + 1..]);
    assert (s[..k] + [s[k]])[..k] == s[..k];
  }

  lemma {:induction false} MapForgetsOrder<T(!new), U(!new)>(f: T -> U, a: seq<T>, b: seq<T>)
    requires multiset(a) == multiset(b)
    ensures multiset(Map(f, a)) == multiset(Map(f, b))
  {
    if a == [] {
      assert |multiset(b)| == |b|;
    } else {
      var k := RemoveLast(a, b);
      MapForgetsOrder(f, a[..|a| - 1], b[..k] + b[k + 1..]);
      MapWithout(f, b, k);
      MapWithout(f, a, |a| - 1);
      assert a[..|a| - 1] + a[|a|..] == a[..|a| - 1];
    }
  }

  lemma MapWithout<T, U(!new)>(f: T -> U, s: seq<T>, k: nat)
    requires k < |s|
    ensures multiset(Map(f, s)) == multiset(Map(f, s[..k] + s[k + 1..])) + multiset{f(s[k])}
  {
    Without(Map(f, s), k);
    assert Map(f, s)[..k] + Map(f, s)[k + 1..] == Map(f, s[..k] + s[k + 1..]);
  }

  /** Insertion sort is stable: what is sorted already stays as it is. */
  lemma {:induction false} SortOfSorted<T(!new)>(less: (T, T) -> bool, s: seq<T>)
    requires Sorted(less, s)
    ensures Sort(less, s) == s
  {
    if s != [] {
      SortOfSorted(less, s[1..]);
    }
  }

  lemma {:induction false} InsertStable<T(!new)>(less: (T, T) -> bool, p: T -> bool, x: T, s: seq<T>)
    requires forall y, z :: p(y) && p(z) ==> !less(y, z)
    ensures Filter(p, Insert(less, x, s)) == (if p(x) then [x] else []) + Filter(p, s)
  {
    if s == [] || !less(s[0], x) {
      FilterConcat(p, [x], s);
    } else {
      InsertStable(less, p, x, s[1..]);
    }
  }

  /** Elements that the order does not separate keep their order. */
  lemma {:induction false} SortStable<T(!new)>(less: (T, T) -> bool, p: T -> bool, s: seq<T>)
    requires forall y, z :: p(y) && p(z) ==> !less(y, z)
    ensures Filter(p, Sort(less, s)) == Filter(p, s)
  {
    if s != [] {
      SortStable(less, p, s[1..]);
      InsertStable(less, p, s[0], Sort(less, s[1..]));
    }
  }

  // ----- Dictionary keys -----

  /** Elements in order of first occurrence, as a dictionary keeps its keys. */
  function Distinct<T(==)>(s: seq<T>): seq<T> {
    if s == [] then []
    else
      var front := Distinct(s[..|s| - 1]);
      if s[|s| - 1] in front then front else front + [s[|s| - 1]]
  }

  lemma {:induction false} DistinctIs<T(!new)>(s: seq<T>)
    ensures forall x :: x in Distinct(s) <==> x in s
    ensures forall i, j :: 0 <= i < j < |Distinct(s)| ==> Distinct(s)[i] != Distinct(s)[j]
  {
    if s != [] {
      DistinctIs(s[..|s| - 1]);
      assert s == s[..|s| - 1] + [s[|s| - 1]];
    }
  }

  /** Integers, distinct and ascending. */
  function SortedKeys(s: seq<int>): seq<int> {
    Sort((x: int, y: int) => x < y, Distinct(s))
  }

  lemma SortedKeysIs(s: seq<int>)
    ensures forall x :: x in SortedKeys(s) <==> x in s
    ensures forall i, j :: 0 <= i < j < |SortedKeys(s)| ==> SortedKeys(s)[i] < SortedKeys(s)[j]
  {
    var less := (x: int, y: int) => x < y;
    var keys := SortedKeys(s);
    DistinctIs(s);
    SortSorts(less, Distinct(s));
    forall i, j | 0 <= i < j < |keys| ensures keys[i] < keys[j] {
      assert !less(keys[j], keys[i]);
      DistinctStays(Distinct(s), keys, i, j);
    }
  }

  lemma DistinctStays<T(!new)>(a: seq<T>, b: seq<T>, i: nat, j: nat)
    requires multiset(a) == multiset(b) && i < j < |b|
    requires forall x, y :: 0 <= x < y < |a| ==> a[x] != a[y]
    ensures b[i] != b[j]
  {
    if b[i] == b[j] {
      Without(b, i);
      assert b[j] in b[..i] + b[i + 1..] by { assert (b[..i] + b[i + 1..])[j - 1] == b[j]; }
      assert multiset(a)[b[i]] >= 2;
      OccursOnce(a, b[i]);
    }
  }

  lemma {:induction false} OccursOnce<T(!new)>(a: seq<T>, v: T)
    requires forall x, y :: 0 <= x < y < |a| ==> a[x] != a[y]
    ensures multiset(a)[v] <= 1
  {
    if v in a {
      var k :| 0 <= k < |a| && a[k] == v;
      Without(a, k);
      assert v !in a[..k] + a[k + 1..];
    }
  }

  lemma SortedKeysForgetOrder(a: seq<int>, b: seq<int>)
    requires forall x :: x in a <==> x in b
    ensures SortedKeys(a) == SortedKeys(b)
  {
    SortedKeysIs(a);
    SortedKeysIs(b);
    forall x ensures x in SortedKeys(a) <==> x in SortedKeys(b) {
      assert x in SortedKeys(a) <==> x in a;
    }
    AscendingUnique((x: int, y: int) => x < y, SortedKeys(a), SortedKeys(b));
  }

  lemma DistinctForgetsOrder<T(!new)>(a: seq<T>, b: seq<T>)
    requires forall x :: x in a <==> x in b
    ensures multiset(Distinct(a)) == multiset(Distinct(b))
  {
    DistinctIs(a);
    DistinctIs(b);
    var m, n := multiset(Distinct(a)), multiset(Distinct(b));
    forall x ensures m[x] == n[x] {
      OccursOnce(Distinct(a), x);
      OccursOnce(Distinct(b), x);
      assert x in Distinct(a) <==> x in Distinct(b);
      assert x in m <==> x in Distinct(a);
      assert x in n <==> x in Distinct(b);
    }
    assert m == n;
  }
}

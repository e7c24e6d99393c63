/** When the evidence of a runway change depends on the order in which its rows are read. */
module RunwayOrder {
  import opened Base
  import opened Ordering
  import opened Generators

  lemma LargerDeltaIsWeak()
    ensures StrictWeak(LargerDelta)
  {
  }

  function Size(r: AttributionRow): real { Abs(r.delta) }

  function Above(c: real): AttributionRow -> bool { (r: AttributionRow) => Size(r) > c }

  function Same(c: real): AttributionRow -> bool { (r: AttributionRow) => Size(r) == c }

  function Carries(id: string): AttributionRow -> bool { (r: AttributionRow) => id in r.ids }

  ghost predicate Carried(rows: seq<AttributionRow>, id: string) {
    exists r :: r in rows && id in r.ids
  }

  /** The third largest change. */
  function Cut(rows: seq<AttributionRow>): real {
    var s := Sort(LargerDelta, rows);
    if |s| >= 3 then Size(s[2]) else 0.0
  }

  function Larger(rows: seq<AttributionRow>): seq<AttributionRow> { Filter(Above(Cut(rows)), rows) }

  /** The rows as large as the third: some of them are among the first three. */
  function Tied(rows: seq<AttributionRow>): seq<AttributionRow> { Filter(Same(Cut(rows)), rows) }

  /** How many of the tied rows are among the first three. */
  function Places(rows: seq<AttributionRow>): int { 3 - |Larger(rows)| }

  /** No id depends on which of the tied rows come first: if a tied row carries it and no larger row
      does, fewer tied rows go without it than there are places. */
  ghost predicate CutHarmless(rows: seq<AttributionRow>) {
    |rows| > 3 ==>
      forall id :: Carried(Tied(rows), id) && !Carried(Larger(rows), id)
        ==> |Filter(Not(Carries(id)), Tied(rows))| < Places(rows)
  }

  // ----- The first three rows -----

  lemma SizesForgetOrder(a: seq<AttributionRow>, b: seq<AttributionRow>)
    requires multiset(a) == multiset(b)
    ensures Map(Size, Sort(LargerDelta, a)) == Map(Size, Sort(LargerDelta, b))
  {
    var s, t := Sort(LargerDelta, a), Sort(LargerDelta, b);
    var larger := (x: real, y: real) => x > y;
    LargerDeltaIsWeak();
    SortSorts(LargerDelta, a);
    SortSorts(LargerDelta, b);
    MapForgetsOrder(Size, s, t);
    forall i, j | 0 <= i < j < |s| ensures !larger(Map(Size, s)[j], Map(Size, s)[i]) {
      assert !LargerDelta(s[j], s[i]);
    }
    forall i, j | 0 <= i < j < |t| ensures !larger(Map(Size, t)[j], Map(Size, t)[i]) {
      assert !LargerDelta(t[j], t[i]);
    }
    SortedUnique(larger, Map(Size, s), Map(Size, t));
  }

  lemma CutForgetsOrder(a: seq<AttributionRow>, b: seq<AttributionRow>)
    requires multiset(a) == multiset(b)
    ensures |a| == |b| && Cut(a) == Cut(b)
    ensures multiset(Larger(a)) == multiset(Larger(b)) && multiset(Tied(a)) == multiset(Tied(b))
  {
    var s, t := Sort(LargerDelta, a), Sort(LargerDelta, b);
    SizesForgetOrder(a, b);
    SameMultiset(a, b);
    LargerDeltaIsWeak();
    SortSorts(LargerDelta, a);
    SortSorts(LargerDelta, b);
    if |a| >= 3 {
      assert Map(Size, s)[2] == Map(Size, t)[2];
    }
    FilterForgetsOrder(Above(Cut(a)), a, b);
    FilterForgetsOrder(Same(Cut(a)), a, b);
  }

  /** Where all of `p` come before all of `q` and these before the rest, they make up the front. */
  lemma {:induction false} FrontIs<T(!new)>(p: T -> bool, q: T -> bool, s: seq<T>)
    requires forall i, j :: 0 <= i < j < |s| && p(s[j]) ==> p(s[i])
    requires forall i, j :: 0 <= i < j < |s| && q(s[j]) ==> p(s[i]) || q(s[i])
    requires forall x :: !(p(x) && q(x))
    ensures Filter(p, s) + Filter(q, s) <= s
  {
    if s != [] {
      var rest := s[1..];
      FrontIs(p, q, rest);
      assert s == [s[0]] + rest;
      if p(s[0]) {
        assert Filter(p, s) + Filter(q, s) == [s[0]] + (Filter(p, rest) + Filter(q, rest));
      } else {
        FilterNone(p, rest);
        if !q(s[0]) {
          FilterNone(q, rest);
        }
      }
    }
  }

  /** Sorted rows are those above the cut, those at it, and those below. */
  lemma SortedSplits(s: seq<AttributionRow>, c: real)
    requires Sorted(LargerDelta, s)
    ensures Filter(Above(c), s) + Filter(Same(c), s) <= s
  {
    forall i, j | 0 <= i < j < |s| ensures Size(s[j]) <= Size(s[i]) {
      assert !LargerDelta(s[j], s[i]);
    }
    FrontIs(Above(c), Same(c), s);
  }

  /** The first three rows are the larger ones and the first of the tied ones, as they were read. */
  lemma TopRowsAre(rows: seq<AttributionRow>)
    requires |rows| > 3
    ensures 0 < Places(rows) <= |Tied(rows)|
    ensures TopRows(rows) == Filter(Above(Cut(rows)), Sort(LargerDelta, rows)) + Tied(rows)[..Places(rows)]
    ensures multiset(Filter(Above(Cut(rows)), Sort(LargerDelta, rows))) == multiset(Larger(rows))
  {
    var s, c := Sort(LargerDelta, rows), Cut(rows);
    LargerDeltaIsWeak();
    SortSorts(LargerDelta, rows);
    SortedSplits(s, c);
    SortStable(LargerDelta, Same(c), rows);
    FilterForgetsOrder(Above(c), s, rows);
    var larger, tied := Filter(Above(c), s), Filter(Same(c), s);
    SameMultiset(larger, Larger(rows));
    ThirdIsTied(s, c);
    FrontTake(larger, tied, s, 3);
  }

  lemma FrontTake<T>(a: seq<T>, b: seq<T>, s: seq<T>, n: nat)
    requires a + b <= s && |a| <= n <= |a| + |b|
    ensures s[..n] == a + b[..n - |a|]
  {
    assert s[..n] == (a + b)[..n];
  }

  lemma ThirdIsTied(s: seq<AttributionRow>, c: real)
    requires |s| >= 3 && Sorted(LargerDelta, s) && c == Size(s[2])
    ensures |Filter(Above(c), s)| <= 2 && |Filter(Above(c), s)| + |Filter(Same(c), s)| >= 3
  {
    assert s == s[..3] + s[3..] && s[..3] == s[..2] + [s[2]];
    FilterConcat(Above(c), s[..3], s[3..]);
    FilterConcat(Same(c), s[..3], s[3..]);
    FilterConcat(Above(c), s[..2], [s[2]]);
    forall r | r in s[3..] ensures !Above(c)(r) {
      var i :| 0 <= i < |s[3..]| && s[3..][i] == r;
      assert !LargerDelta(s[i + 3], s[2]);
    }
    FilterNone(Above(c), s[3..]);
    assert Filter(Above(c), [s[2]]) == [];
    FilterAtMost(Above(c), s[..2]);
    assert !LargerDelta(s[2], s[0]) && !LargerDelta(s[2], s[1]);
    EitherFilter(s[..3], c);
  }

  lemma {:induction false} FilterAtMost(p: AttributionRow -> bool, s: seq<AttributionRow>)
    ensures |Filter(p, s)| <= |s|
  {
    if s != [] {
      FilterAtMost(p, s[1..]);
    }
  }

  lemma {:induction false} EitherFilter(s: seq<AttributionRow>, c: real)
    requires forall r :: r in s ==> Size(r) >= c
    ensures |Filter(Above(c), s)| + |Filter(Same(c), s)| == |s|
  {
    if s != [] {
      EitherFilter(s[1..], c);
    }
  }

  // ----- The evidence -----

  lemma {:induction false} AllIdsAre(rows: seq<AttributionRow>, id: string)
    ensures id in AllIds(rows) <==> Carried(rows, id)
  {
    if rows != [] {
      var n := |rows| - 1;
      AllIdsAre(rows[..n], id);
      assert rows == rows[..n] + [rows[n]];
      if id in AllIds(rows[..n]) {
        var r :| r in rows[..n] && id in r.ids;
        assert r in rows;
      }
      assert rows[n] in rows;
    }
  }

  lemma EvidenceIds(rows: seq<AttributionRow>, id: string)
    ensures id in RunwayEvidence(rows) <==> Carried(TopRows(rows), id)
  {
    AllIdsAre(TopRows(rows), id);
    DistinctIs(AllIds(TopRows(rows)));
    StrLessIsTotal();
    SortSorts(StrLess, Distinct(AllIds(TopRows(rows))));
  }

  /** The evidence is determined by the ids that the first three rows carry. */
  lemma SameIdsSameEvidence(a: seq<AttributionRow>, b: seq<AttributionRow>)
    requires forall id :: Carried(TopRows(a), id) <==> Carried(TopRows(b), id)
    ensures RunwayEvidence(a) == RunwayEvidence(b)
  {
    var x, y := AllIds(TopRows(a)), AllIds(TopRows(b));
    forall id ensures id in x <==> id in y {
      AllIdsAre(TopRows(a), id);
      AllIdsAre(TopRows(b), id);
    }
    DistinctForgetsOrder(x, y);
    StrLessIsTotal();
    SortForgetsOrder(StrLess, Distinct(x), Distinct(y));
  }

  lemma CarriedForgetsOrder(a: seq<AttributionRow>, b: seq<AttributionRow>, id: string)
    requires multiset(a) == multiset(b)
    ensures Carried(a, id) <==> Carried(b, id)
  {
    SameMultiset(a, b);
  }

  lemma CarriedConcat(a: seq<AttributionRow>, b: seq<AttributionRow>, id: string)
    ensures Carried(a + b, id) <==> Carried(a, id) || Carried(b, id)
  {
    if Carried(a, id) {
      var r :| r in a && id in r.ids;
      assert r in a + b;
    }
    if Carried(b, id) {
      var r :| r in b && id in r.ids;
      assert r in a + b;
    }
  }

  /** Which ids the evidence of more than three rows has. */
  lemma EvidenceOfMany(rows: seq<AttributionRow>, id: string)
    requires |rows| > 3
    ensures 0 < Places(rows) <= |Tied(rows)|
    ensures Carried(TopRows(rows), id) <==> Carried(Larger(rows), id) || Carried(Tied(rows)[..Places(rows)], id)
  {
    TopRowsAre(rows);
    var larger := Filter(Above(Cut(rows)), Sort(LargerDelta, rows));
    CarriedConcat(larger, Tied(rows)[..Places(rows)], id);
    CarriedForgetsOrder(larger, Larger(rows), id);
  }

  /** If too few rows go without an id to fill the places, it is among those in the places. */
  lemma SomeCarrierHasAPlace(tied: seq<AttributionRow>, k: nat, id: string)
    requires k <= |tied| && |Filter(Not(Carries(id)), tied)| < k
    ensures Carried(tied[..k], id)
  {
    if !Carried(tied[..k], id) {
      var p := Not(Carries(id));
      assert forall r :: r in tied[..k] ==> p(r);
      FilterAll(p, tied[..k]);
      assert tied == tied[..k] + tied[k..];
      FilterConcat(p, tied[..k], tied[k..]);
    }
  }

  lemma EvidenceForgetsOrder(a: seq<AttributionRow>, b: seq<AttributionRow>)
    requires multiset(a) == multiset(b) && CutHarmless(a)
    ensures RunwayEvidence(a) == RunwayEvidence(b)
  {
    CutForgetsOrder(a, b);
    forall id ensures Carried(TopRows(a), id) <==> Carried(TopRows(b), id) {
      if |a| <= 3 {
        FewRows(a, id);
        FewRows(b, id);
        CarriedForgetsOrder(a, b, id);
      } else {
        HarmlessEvidence(a, a, id);
        HarmlessEvidence(a, b, id);
      }
    }
    SameIdsSameEvidence(a, b);
  }

  lemma FewRows(rows: seq<AttributionRow>, id: string)
    requires |rows| <= 3
    ensures Carried(TopRows(rows), id) <==> Carried(rows, id)
  {
    LargerDeltaIsWeak();
    SortSorts(LargerDelta, rows);
    CarriedForgetsOrder(rows, Sort(LargerDelta, rows), id);
  }

  /** In every order of `a` the evidence has the ids of the larger and of the tied rows. */
  lemma HarmlessEvidence(a: seq<AttributionRow>, b: seq<AttributionRow>, id: string)
    requires multiset(a) == multiset(b) && |a| > 3 && CutHarmless(a)
    ensures Carried(TopRows(b), id) <==> Carried(Larger(a), id) || Carried(Tied(a), id)
  {
    CutForgetsOrder(a, b);
    EvidenceOfMany(b, id);
    CarriedForgetsOrder(Larger(a), Larger(b), id);
    CarriedForgetsOrder(Tied(a), Tied(b), id);
    var tied, k := Tied(b), Places(b);
    SameMultiset(Larger(a), Larger(b));
    assert tied == tied[..k] + tied[k..];
    CarriedConcat(tied[..k], tied[k..], id);
    if Carried(Tied(a), id) && !Carried(Larger(a), id) {
      FilterForgetsOrder(Not(Carries(id)), Tied(a), tied);
      SameMultiset(Filter(Not(Carries(id)), Tied(a)), Filter(Not(Carries(id)), tied));
      SomeCarrierHasAPlace(tied, k, id);
    }
  }

  // ----- Where the order matters -----

  /** `rows` with those that satisfy `q` read first. */
  function First(q: AttributionRow -> bool, rows: seq<AttributionRow>): seq<AttributionRow> {
    Filter(q, rows) + Filter(Not(q), rows)
  }

  lemma TiedFirst(q: AttributionRow -> bool, rows: seq<AttributionRow>)
    ensures multiset(First(q, rows)) == multiset(rows)
    ensures Tied(First(q, rows)) == First(q, Tied(rows)) && multiset(Larger(First(q, rows))) == multiset(Larger(rows))
  {
    FilterSplits(q, rows);
    CutForgetsOrder(First(q, rows), rows);
    var p := Same(Cut(rows));
    FilterConcat(p, Filter(q, rows), Filter(Not(q), rows));
    FilterCommutes(p, q, rows);
    FilterCommutes(p, Not(q), rows);
  }

  /** Reading first the rows without an id, or those with it, decides whether the evidence has it. */
  lemma HarmfulCut(rows: seq<AttributionRow>) returns (b: seq<AttributionRow>)
    requires !CutHarmless(rows)
    ensures multiset(b) == multiset(rows) && RunwayEvidence(b) != RunwayEvidence(rows)
  {
    var id :| Carried(Tied(rows), id) && !Carried(Larger(rows), id)
           && |Filter(Not(Carries(id)), Tied(rows))| >= Places(rows);
    var without, with := First(Not(Carries(id)), rows), First(Carries(id), rows);
    WithoutFirst(rows, id);
    WithFirst(rows, id);
    EvidenceIds(without, id);
    EvidenceIds(with, id);
    b := if RunwayEvidence(without) == RunwayEvidence(rows) then with else without;
  }

  lemma WithoutFirst(rows: seq<AttributionRow>, id: string)
    requires |rows| > 3 && !Carried(Larger(rows), id) && |Filter(Not(Carries(id)), Tied(rows))| >= Places(rows)
    ensures multiset(First(Not(Carries(id)), rows)) == multiset(rows)
    ensures !Carried(TopRows(First(Not(Carries(id)), rows)), id)
  {
    var q := Not(Carries(id));
    var b := First(q, rows);
    TiedFirst(q, rows);
    SameMultiset(b, rows);
    SameMultiset(Larger(b), Larger(rows));
    CarriedForgetsOrder(Larger(b), Larger(rows), id);
    EvidenceOfMany(b, id);
    FilterMembers(q, Tied(rows));
    var front := Filter(q, Tied(rows));
    assert Tied(b)[..Places(b)] == front[..Places(b)];
    forall r | r in front[..Places(b)] ensures id !in r.ids {
      assert r in front;
    }
  }

  lemma WithFirst(rows: seq<AttributionRow>, id: string)
    requires |rows| > 3 && Carried(Tied(rows), id)
    ensures multiset(First(Carries(id), rows)) == multiset(rows)
    ensures Carried(TopRows(First(Carries(id), rows)), id)
  {
    var q := Carries(id);
    var b := First(q, rows);
    TiedFirst(q, rows);
    SameMultiset(b, rows);
    EvidenceOfMany(b, id);
    FilterMembers(q, Tied(rows));
    var front := Filter(q, Tied(rows));
    var r :| r in Tied(rows) && id in r.ids;
    assert r in front;
    assert Tied(b)[0] == front[0] && front[0] in front;
    assert Tied(b)[0] in Tied(b)[..Places(b)];
  }

  /** The evidence does not depend on the order of the rows if and only if the cut at three is harmless. */
  lemma EvidenceIsOrderIndependentIff(a: seq<AttributionRow>)
    ensures (forall b :: multiset(b) == multiset(a) ==> RunwayEvidence(b) == RunwayEvidence(a)) <==> CutHarmless(a)
  {
    if CutHarmless(a) {
      forall b | multiset(b) == multiset(a) ensures RunwayEvidence(b) == RunwayEvidence(a) {
        EvidenceForgetsOrder(a, b);
      }
    } else {
      var b := HarmfulCut(a);
    }
  }

  lemma HarmlessForgetsOrder(a: seq<AttributionRow>, b: seq<AttributionRow>)
    requires multiset(a) == multiset(b) && CutHarmless(a)
    ensures CutHarmless(b)
  {
    EvidenceForgetsOrder(a, b);
    forall c | multiset(c) == multiset(b) ensures RunwayEvidence(c) == RunwayEvidence(b) {
      EvidenceForgetsOrder(a, c);
    }
    EvidenceIsOrderIndependentIff(b);
  }

  // ----- The forecasts that are stored -----

  /** The rows `compute_forecast` stores: one for each week, with the same flows and the same ids. */
  function ForecastRows(monday: int, horizon: nat, delta: real, ids: seq<string>): seq<AttributionRow> {
    seq(horizon, i => AttributionRow(monday + 7 * i, delta, ids))
  }

  ghost predicate SharedIds(rows: seq<AttributionRow>) {
    forall r, q :: r in rows && q in rows ==> r.ids == q.ids
  }

  lemma SharedIdsAreHarmless(rows: seq<AttributionRow>)
    requires SharedIds(rows)
    ensures CutHarmless(rows)
  {
    if |rows| > 3 {
      TopRowsAre(rows);
      FilterMembers(Same(Cut(rows)), rows);
      forall id | Carried(Tied(rows), id) ensures |Filter(Not(Carries(id)), Tied(rows))| == 0 {
        FilterNone(Not(Carries(id)), Tied(rows));
      }
    }
  }

  /** Every stored forecast of four or more weeks is tied at the cut, and harmless all the same. */
  lemma StoredForecastsAreHarmless(monday: int, horizon: nat, delta: real, ids: seq<string>)
    ensures var rows := ForecastRows(monday, horizon, delta, ids);
      CutHarmless(rows) && (horizon > 3 ==> |Tied(rows)| == horizon)
  {
    var rows := ForecastRows(monday, horizon, delta, ids);
    SharedIdsAreHarmless(rows);
    if horizon > 3 {
      LargerDeltaIsWeak();
      SortSorts(LargerDelta, rows);
      assert Sort(LargerDelta, rows)[2] in rows;
      FilterAll(Same(Cut(rows)), rows);
    }
  }
}

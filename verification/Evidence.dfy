/** The canonical form of an evidence list: its ids sorted and joined with commas. */
module Evidence {
  import opened Ordering

  function Join(ids: seq<string>): string {
    if |ids| == 0 then "" else if |ids| == 1 then ids[0] else ids[0] + "," + Join(ids[1..])
  }

  /** What `evidence_hash` hashes. */
  function Canonical(ids: seq<string>): string {
    Join(Sort(StrLess, ids))
  }

  /** Ids that are not empty and hold no comma, as UUIDs are. */
  ghost predicate Clean(ids: seq<string>) {
    forall id :: id in ids ==> id != "" && ',' !in id
  }

  function UpToComma(s: string): nat {
    if s == "" || s[0] == ',' then 0 else 1 + UpToComma(s[1..])
  }

  lemma {:induction false} UpToCommaIs(x: string, u: string)
    requires ',' !in x && (u == "" || u[0] == ',')
    ensures UpToComma(x + u) == |x|
  {
    if x == "" {
      assert x + u == u;
    } else {
      assert (x + u)[1..] == x[1..] + u;
      UpToCommaIs(x[1..], u);
    }
  }

  lemma SplitUnique(x: string, u: string, y: string, v: string)
    requires ',' !in x && ',' !in y
    requires (u == "" || u[0] == ',') && (v == "" || v[0] == ',')
    requires x + u == y + v
    ensures x == y && u == v
  {
    UpToCommaIs(x, u);
    UpToCommaIs(y, v);
    assert (x + u)[..|x|] == x && (y + v)[..|y|] == y;
    assert (x + u)[|x|..] == u && (y + v)[|y|..] == v;
  }

  function Rest(ids: seq<string>): string
    requires ids != []
  {
    if |ids| == 1 then "" else "," + Join(ids[1..])
  }

  lemma {:induction false} JoinInjective(a: seq<string>, b: seq<string>)
    requires Clean(a) && Clean(b) && Join(a) == Join(b)
    ensures a == b
  {
    assert a != [] ==> a[0] in a;
    assert b != [] ==> b[0] in b;
    if a != [] && b != [] {
      assert Join(a) == a[0] + Rest(a) && Join(b) == b[0] + Rest(b);
      SplitUnique(a[0], Rest(a), b[0], Rest(b));
      if |a| > 1 {
        assert Rest(a)[1..] == Join(a[1..]) && Rest(b)[1..] == Join(b[1..]);
        assert forall id :: id in a[1..] ==> id in a;
        assert forall id :: id in b[1..] ==> id in b;
        JoinInjective(a[1..], b[1..]);
      }
      assert a == [a[0]] + a[1..] && b == [b[0]] + b[1..];
    }
  }

  lemma CanonicalForgetsOrder(a: seq<string>, b: seq<string>)
    requires multiset(a) == multiset(b)
    ensures Canonical(a) == Canonical(b)
  {
    StrLessIsTotal();
    SortForgetsOrder(StrLess, a, b);
  }

  /** Two lists of ids have one canonical form if and only if they are equal as multisets. */
  lemma CanonicalIffSameIds(a: seq<string>, b: seq<string>)
    requires Clean(a) && Clean(b)
    ensures Canonical(a) == Canonical(b) <==> multiset(a) == multiset(b)
  {
    if multiset(a) == multiset(b) {
      CanonicalForgetsOrder(a, b);
    } else if Canonical(a) == Canonical(b) {
      StrLessIsTotal();
      SortSorts(StrLess, a);
      SortSorts(StrLess, b);
      JoinInjective(Sort(StrLess, a), Sort(StrLess, b));
    }
  }
}

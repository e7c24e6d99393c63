/** Which candidates a run stores, and when the stored rows depend on the order of the candidates. */
module InsightRows {
  import opened Base
  import opened Ordering
  import opened Evidence
  import opened Generators
  import opened Loaders
  import opened Insights
  import opened InsightTheorems
  import opened LateInvoices

  /** The candidates that `Persist` turns into rows, in order. */
  function Added(t: Tables, org: nat, cands: seq<Candidate>, h: Hash): seq<Candidate> {
    if cands == [] then []
    else
      var front, c := cands[..|cands| - 1], cands[|cands| - 1];
      Added(t, org, front, h) + if KeyOf(c, h) in Keys(Persist(t, org, front, h).insights, org) then [] else [c]
  }

  function RowOf(c: Candidate, org: nat, id: nat, h: Hash): Insight {
    Insight(id, org, c.kind, c.severity, c.evidence, h(Canonical(c.evidence)), false)
  }

  /** The new rows are those of the added candidates, numbered on. */
  lemma {:induction false} RowsAreOfTheAdded(t: Tables, org: nat, cands: seq<Candidate>, h: Hash)
    ensures var t', added := Persist(t, org, cands, h), Added(t, org, cands, h);
      && t'.insights == t.insights + seq(|added|, i requires 0 <= i < |added| => RowOf(added[i], org, t.nextId + i, h))
      && t'.nextId == t.nextId + |added|
  {
    if cands == [] {
      assert t.insights + [] == t.insights;
    } else {
      RowsAreOfTheAdded(t, org, cands[..|cands| - 1], h);
    }
  }

  /** Two candidates are about the same evidence, in whatever order their ids are listed. */
  ghost predicate SameFinding(kind: Kind, evidence: seq<string>, c: Candidate) {
    kind == c.kind && multiset(evidence) == multiset(c.evidence)
  }

  ghost predicate KnownFinding(t: Tables, org: nat, c: Candidate) {
    exists r :: r in t.insights && r.org == org && SameFinding(r.kind, r.evidence, c)
  }

  lemma SameKeyIff(kind: Kind, evidence: seq<string>, c: Candidate, h: Hash)
    requires Injective(h) && Clean(evidence) && Clean(c.evidence)
    ensures (kind, h(Canonical(evidence))) == KeyOf(c, h) <==> SameFinding(kind, evidence, c)
  {
    CanonicalIffSameIds(evidence, c.evidence);
  }

  lemma KnownKeyIff(t: Tables, org: nat, c: Candidate, h: Hash)
    requires StoreOk(t, h) && Injective(h) && Clean(c.evidence)
    requires forall r :: r in t.insights ==> Clean(r.evidence)
    ensures KeyOf(c, h) in Keys(t.insights, org) <==> KnownFinding(t, org, c)
  {
    forall r | r in t.insights ensures (r.kind, r.hash) == KeyOf(c, h) <==> SameFinding(r.kind, r.evidence, c) {
      var i :| 0 <= i < |t.insights| && t.insights[i] == r;
      SameKeyIff(r.kind, r.evidence, c, h);
    }
  }

  ghost predicate EarlierFinding(cands: seq<Candidate>, i: nat)
    requires i < |cands|
  {
    exists j :: 0 <= j < i && SameFinding(cands[j].kind, cands[j].evidence, cands[i])
  }

  /** Candidate `i` becomes a row if and only if its type with its multiset of evidence ids is new to the
      organisation and to the batch so far. */
  lemma CandidateIsStoredIff(t: Tables, org: nat, cands: seq<Candidate>, h: Hash, i: nat)
    requires StoreOk(t, h) && Injective(h) && i < |cands|
    requires forall r :: r in t.insights ==> Clean(r.evidence)
    requires forall c :: c in cands ==> Clean(c.evidence)
    ensures Added(t, org, cands[..i + 1], h) == Added(t, org, cands[..i], h)
         + if KnownFinding(t, org, cands[i]) || EarlierFinding(cands, i) then [] else [cands[i]]
  {
    var key := KeyOf(cands[i], h);
    assert cands[..i + 1][..i] == cands[..i];
    PersistOk(t, org, cands[..i], h);
    KnownKeyIff(t, org, cands[i], h);
    forall j | 0 <= j < i
      ensures KeyOf(cands[j], h) == key <==> SameFinding(cands[j].kind, cands[j].evidence, cands[i])
    {
      SameKeyIff(cands[j].kind, cands[j].evidence, cands[i], h);
    }
    KeyInBatchIff(cands[..i], key, h);
  }

  lemma KeyInBatchIff(cands: seq<Candidate>, key: Key, h: Hash)
    ensures key in CandidateKeys(cands, h) <==> exists j :: 0 <= j < |cands| && KeyOf(cands[j], h) == key
  {
    if key in CandidateKeys(cands, h) {
      var c :| c in cands && KeyOf(c, h) == key;
    }
    if j :| 0 <= j < |cands| && KeyOf(cands[j], h) == key {
      assert cands[j] in cands;
    }
  }

  // ----- Candidates that compete for a key -----

  /** Candidates of the batch that compete for one new key are equal. */
  ghost predicate KeysAgree(t: Tables, org: nat, cands: seq<Candidate>, h: Hash) {
    forall c, d :: c in cands && d in cands && KeyOf(c, h) == KeyOf(d, h) && KeyOf(c, h) !in Keys(t.insights, org)
      ==> c == d
  }

  /** `added` has one element of `cands` for each key that is not known, and no other. */
  ghost predicate Represents<T(!new), K(!new)>(key: T -> K, added: seq<T>, cands: seq<T>, known: set<K>) {
    && (forall c :: c in added ==> c in cands && key(c) !in known)
    && (forall i, j :: 0 <= i < j < |added| ==> key(added[i]) != key(added[j]))
    && (forall c :: c in cands ==> key(c) in known || HasKey(key, added, key(c)))
  }

  ghost predicate HasKey<T(!new), K>(key: T -> K, s: seq<T>, k: K) {
    exists c :: c in s && key(c) == k
  }

  lemma RepresentsStep<T(!new), K(!new)>(key: T -> K, added: seq<T>, cands: seq<T>, known: set<K>, c: T)
    requires Represents(key, added, cands, known)
    ensures Represents(
              key, if key(c) in known || HasKey(key, added, key(c)) then added else added + [c], cands + [c], known)
  {
    var after := if key(c) in known || HasKey(key, added, key(c)) then added else added + [c];
    forall x | x in cands + [c] ensures key(x) in known || HasKey(key, after, key(x)) {
      if x in cands && HasKey(key, added, key(x)) {
        var d :| d in added && key(d) == key(x);
        assert d in after;
      } else if x == c && after != added {
        assert after[|added|] == c;
      }
    }
    if after != added {
      forall i | 0 <= i < |added| ensures key(added[i]) != key(c) {
        assert added[i] in added;
      }
    }
  }

  function Keyed(h: Hash): Candidate -> Key { (c: Candidate) => KeyOf(c, h) }

  lemma AddedSnoc(t: Tables, org: nat, front: seq<Candidate>, c: Candidate, h: Hash)
    requires StoreOk(t, h)
    ensures Added(t, org, front + [c], h)
         == if KeyOf(c, h) in Keys(t.insights, org) + CandidateKeys(front, h) then Added(t, org, front, h)
            else Added(t, org, front, h) + [c]
  {
    assert (front + [c])[..|front|] == front;
    PersistOk(t, org, front, h);
  }

  /** One candidate of each new key is added, and no other. */
  lemma {:induction false} AddedAre(t: Tables, org: nat, cands: seq<Candidate>, h: Hash)
    requires StoreOk(t, h)
    ensures Represents(Keyed(h), Added(t, org, cands, h), cands, Keys(t.insights, org))
  {
    if cands != [] {
      var front, c := cands[..|cands| - 1], cands[|cands| - 1];
      AddedAre(t, org, front, h);
      AddedStep(t, org, front, c, h);
      assert cands == front + [c];
    }
  }

  lemma AddedStep(t: Tables, org: nat, front: seq<Candidate>, c: Candidate, h: Hash)
    requires StoreOk(t, h) && Represents(Keyed(h), Added(t, org, front, h), front, Keys(t.insights, org))
    ensures Represents(Keyed(h), Added(t, org, front + [c], h), front + [c], Keys(t.insights, org))
  {
    AddedSnoc(t, org, front, c, h);
    KeptKeyIff(front, Added(t, org, front, h), Keys(t.insights, org), c, h);
    RepresentsStep(Keyed(h), Added(t, org, front, h), front, Keys(t.insights, org), c);
  }

  lemma KeptKeyIff(front: seq<Candidate>, added: seq<Candidate>, known: set<Key>, c: Candidate, h: Hash)
    requires Represents(Keyed(h), added, front, known)
    ensures KeyOf(c, h) in known + CandidateKeys(front, h)
       <==> Keyed(h)(c) in known || HasKey(Keyed(h), added, Keyed(h)(c))
  {
    if HasKey(Keyed(h), added, KeyOf(c, h)) {
      var d :| d in added && Keyed(h)(d) == KeyOf(c, h);
      assert d in front;
    }
    if KeyOf(c, h) in CandidateKeys(front, h) {
      var d :| d in front && KeyOf(d, h) == KeyOf(c, h);
      assert Keyed(h)(d) in known || HasKey(Keyed(h), added, Keyed(h)(d));
    }
  }

  lemma AddedMembers(t: Tables, org: nat, cands: seq<Candidate>, h: Hash, c: Candidate)
    requires StoreOk(t, h) && KeysAgree(t, org, cands, h)
    ensures c in Added(t, org, cands, h) <==> c in cands && KeyOf(c, h) !in Keys(t.insights, org)
  {
    var added := Added(t, org, cands, h);
    AddedAre(t, org, cands, h);
    assert c in added ==> Keyed(h)(c) !in Keys(t.insights, org);
    if c in cands && KeyOf(c, h) !in Keys(t.insights, org) {
      assert HasKey(Keyed(h), added, Keyed(h)(c));
      var d :| d in added && Keyed(h)(d) == Keyed(h)(c);
    }
  }

  ghost predicate AllDiffer<T>(s: seq<T>) {
    forall i, j :: 0 <= i < j < |s| ==> s[i] != s[j]
  }

  lemma SameMembersSameMultiset<T(!new)>(a: seq<T>, b: seq<T>)
    requires forall x :: x in a <==> x in b
    requires AllDiffer(a) && AllDiffer(b)
    ensures multiset(a) == multiset(b)
  {
    forall x ensures multiset(a)[x] == multiset(b)[x] {
      OccursOnce(a, x);
      OccursOnce(b, x);
      assert x in a <==> x in multiset(a);
      assert x in b <==> x in multiset(b);
    }
  }

  lemma KeysAgreeOnMembers(t: Tables, org: nat, a: seq<Candidate>, b: seq<Candidate>, h: Hash)
    requires KeysAgree(t, org, a, h) && forall c :: c in b ==> c in a
    ensures KeysAgree(t, org, b, h)
  {
  }

  lemma SameAdded(t: Tables, org: nat, a: seq<Candidate>, b: seq<Candidate>, h: Hash, c: Candidate)
    requires StoreOk(t, h) && KeysAgree(t, org, a, h) && KeysAgree(t, org, b, h) && (c in a <==> c in b)
    ensures c in Added(t, org, a, h) <==> c in Added(t, org, b, h)
  {
    AddedMembers(t, org, a, h, c);
    AddedMembers(t, org, b, h, c);
  }

  /** The same candidates in another order, or repeated: the same rows, up to their numbers. */
  lemma AgreeingBatchesAddTheSame(t: Tables, org: nat, a: seq<Candidate>, b: seq<Candidate>, h: Hash)
    requires StoreOk(t, h) && KeysAgree(t, org, a, h) && forall c :: c in a <==> c in b
    ensures multiset(Added(t, org, a, h)) == multiset(Added(t, org, b, h))
  {
    var x, y := Added(t, org, a, h), Added(t, org, b, h);
    KeysAgreeOnMembers(t, org, a, b, h);
    AddedDiffer(t, org, a, h);
    AddedDiffer(t, org, b, h);
    forall c ensures c in x <==> c in y {
      SameAdded(t, org, a, b, h, c);
    }
    SameMembersSameMultiset(x, y);
  }

  lemma AddedDiffer(t: Tables, org: nat, cands: seq<Candidate>, h: Hash)
    requires StoreOk(t, h)
    ensures AllDiffer(Added(t, org, cands, h))
  {
    AddedAre(t, org, cands, h);
    var added := Added(t, org, cands, h);
    forall i, j | 0 <= i < j < |added| ensures added[i] != added[j] {
      assert Keyed(h)(added[i]) != Keyed(h)(added[j]);
    }
  }

  lemma {:induction false} AddedExtends(t: Tables, org: nat, cands: seq<Candidate>, h: Hash, n: nat)
    requires n <= |cands|
    ensures Added(t, org, cands[..n], h) <= Added(t, org, cands, h)
    decreases |cands|
  {
    if n < |cands| {
      AddedExtends(t, org, cands[..|cands| - 1], h, n);
      assert cands[..|cands| - 1][..n] == cands[..n];
    } else {
      assert cands[..n] == cands;
    }
  }

  lemma LastOfPrefix<T>(a: seq<T>, x: T, s: seq<T>)
    requires a + [x] <= s
    ensures x in s
  {
    assert s[|a|] == (a + [x])[|a|] == x;
  }

  /** A candidate is added if its key is new to the organisation and to the batch before it. */
  lemma NewKeyIsAdded(
      t: Tables, org: nat, before: seq<Candidate>, c: Candidate, after: seq<Candidate>, h: Hash)
    requires StoreOk(t, h) && KeyOf(c, h) !in Keys(t.insights, org) + CandidateKeys(before, h)
    ensures c in Added(t, org, before + [c] + after, h)
  {
    AddedSnoc(t, org, before, c, h);
    assert (before + [c] + after)[..|before| + 1] == before + [c];
    AddedExtends(t, org, before + [c] + after, h, |before| + 1);
    LastOfPrefix(Added(t, org, before, h), c, Added(t, org, before + [c] + after, h));
  }

  ghost predicate SameRows(t: Tables, org: nat, a: seq<Candidate>, b: seq<Candidate>, h: Hash) {
    multiset(Added(t, org, a, h)) == multiset(Added(t, org, b, h))
  }

  lemma NotBothAdded(t: Tables, org: nat, cands: seq<Candidate>, h: Hash, c: Candidate, d: Candidate)
    requires StoreOk(t, h) && KeyOf(c, h) == KeyOf(d, h) && c != d && c in Added(t, org, cands, h)
    ensures d !in Added(t, org, cands, h)
  {
    AddedAre(t, org, cands, h);
    var added := Added(t, org, cands, h);
    var i :| 0 <= i < |added| && added[i] == c;
    forall j | 0 <= j < |added| ensures added[j] != d {
      assert i < j ==> Keyed(h)(added[i]) != Keyed(h)(added[j]);
      assert j < i ==> Keyed(h)(added[j]) != Keyed(h)(added[i]);
    }
  }

  /** If no unequal candidates compete, the same facts read in another order give the same rows. */
  lemma RunsStoreTheSameRows(
      t: Tables, org: nat, f: Facts, g: Facts, today: int, lastRun: Option<int>, month: int -> int, h: Hash)
    requires StoreOk(t, h) && SameFacts(f, g) && OrderProof(f)
    requires KeysAgree(t, org, Candidates(f, today, lastRun, month), h)
    ensures SameRows(t, org, Candidates(f, today, lastRun, month), Candidates(g, today, lastRun, month), h)
  {
    var cf, cg := Candidates(f, today, lastRun, month), Candidates(g, today, lastRun, month);
    OrderProofForgetsOrder(f, g);
    forall c ensures c in cf <==> c in cg {
      if c in cf {
        CandidatesForgetOrder(f, g, today, lastRun, month, c);
      }
      if c in cg {
        CandidatesForgetOrder(g, f, today, lastRun, month, c);
      }
    }
    AgreeingBatchesAddTheSame(t, org, cf, cg, h);
  }
}

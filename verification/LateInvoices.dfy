/** From invoice facts to rows over a chain of runs, each using the previous date as `last_run`. */
module LateInvoices {
  import opened Base
  import opened Ordering
  import opened Evidence
  import opened Generators
  import opened Loaders
  import opened RunwayOrder
  import opened Insights
  import opened InsightTheorems

  ghost predicate Injective(h: Hash) {
    forall a, b :: h(a) == h(b) ==> a == b
  }

  lemma SpikeKinds(histories: seq<VendorHistory>, c: Candidate)
    requires c in VendorSpikes(histories)
    ensures c.kind == VendorSpike
  {
    MapMembers(SpikeCandidate, Filter((v: VendorHistory) => Spikes(v), histories));
  }

  lemma RenewalMembers(today: int, commitments: seq<CommitmentFact>, c: Candidate)
    ensures c in Renewals(today, commitments)
       <==> exists m :: m in commitments && RenewsSoon(m, today) && c == RenewalCandidate(m)
  {
    var renewing := Map(RenewalCandidate, Filter((m: CommitmentFact) => RenewsSoon(m, today), commitments));
    FilterMembers((m: CommitmentFact) => RenewsSoon(m, today), commitments);
    MapMembers(RenewalCandidate, Filter((m: CommitmentFact) => RenewsSoon(m, today), commitments));
    SortKeepsElements(renewing);
    SameMultiset(Sort(ById, renewing), renewing);
  }

  lemma LateKinds(today: int, invoices: seq<InvoiceFact>, lastRun: Option<int>, c: Candidate)
    requires c in NewlyLate(today, invoices, lastRun)
    ensures c.kind == LateInvoice
  {
    LateMembers(today, invoices, lastRun, c);
  }

  lemma PartKinds(f: Facts, today: int, lastRun: Option<int>, month: int -> int, c: Candidate)
    requires c in Candidates(f, today, lastRun, month)
    ensures c.kind == CashDrop ==> c in CashCandidates(f, today)
    ensures c.kind == LateInvoice ==> c in NewlyLate(today, LoadedInvoices(f.invoices), lastRun)
    ensures c.kind == VendorSpike ==> c in VendorSpikes(VendorHistories(f.txns, today, month))
    ensures c.kind == CommitmentRenewal ==> c in Renewals(today, f.commitments)
    ensures c.kind == RunwayChange ==> c in RunwayCandidates(f)
  {
    var late := NewlyLate(today, LoadedInvoices(f.invoices), lastRun);
    var spikes := VendorSpikes(VendorHistories(f.txns, today, month));
    InOneOfFive(CashCandidates(f, today), late, spikes, Renewals(today, f.commitments), RunwayCandidates(f), c);
    if c in late {
      LateKinds(today, LoadedInvoices(f.invoices), lastRun, c);
    } else if c in spikes {
      SpikeKinds(VendorHistories(f.txns, today, month), c);
    } else if c in Renewals(today, f.commitments) {
      RenewalMembers(today, f.commitments, c);
    }
  }

  /** The run finds the invoice newly late. */
  ghost predicate Reports(f: Facts, today: int, lastRun: Option<int>, id: string) {
    exists inv :: inv in LoadedInvoices(f.invoices) && inv.id == id
               && CrossedLate(inv, today, WindowStart(today, lastRun))
  }

  function LateKey(id: string, h: Hash): Key { (LateInvoice, h(Canonical([id]))) }

  lemma LateMembers(today: int, invoices: seq<InvoiceFact>, lastRun: Option<int>, c: Candidate)
    ensures c in NewlyLate(today, invoices, lastRun)
            <==> exists inv :: inv in invoices && CrossedLate(inv, today, WindowStart(today, lastRun))
                            && c == LateCandidate(inv)
  {
    var p := (inv: InvoiceFact) => CrossedLate(inv, today, WindowStart(today, lastRun));
    FilterMembers(p, invoices);
    MapMembers(LateCandidate, Filter(p, invoices));
  }

  /** A run puts forward the key of an invoice if and only if it finds that invoice newly late. */
  lemma LateKeyIff(f: Facts, today: int, lastRun: Option<int>, month: int -> int, id: string, h: Hash)
    requires Injective(h) && Clean([id]) && forall inv :: inv in f.invoices ==> Clean([inv.id])
    ensures LateKey(id, h) in CandidateKeys(Candidates(f, today, lastRun, month), h) <==> Reports(f, today, lastRun, id)
  {
    var cands, invoices := Candidates(f, today, lastRun, month), LoadedInvoices(f.invoices);
    if Reports(f, today, lastRun, id) {
      var inv :| inv in invoices && inv.id == id && CrossedLate(inv, today, WindowStart(today, lastRun));
      LateMembers(today, invoices, lastRun, LateCandidate(inv));
      InOneOfFive(
        CashCandidates(f, today), NewlyLate(today, invoices, lastRun),
        VendorSpikes(VendorHistories(f.txns, today, month)), Renewals(today, f.commitments), RunwayCandidates(f),
        LateCandidate(inv));
      assert KeyOf(LateCandidate(inv), h) == LateKey(id, h);
    }
    if LateKey(id, h) in CandidateKeys(cands, h) {
      var c :| c in cands && KeyOf(c, h) == LateKey(id, h);
      PartKinds(f, today, lastRun, month, c);
      LateMembers(today, invoices, lastRun, c);
      var inv :| inv in invoices && CrossedLate(inv, today, WindowStart(today, lastRun)) && c == LateCandidate(inv);
      FilterMembers((i: InvoiceFact) => i.status == "open" || i.status == "overdue" || i.status == "paid", f.invoices);
      CanonicalIffSameIds([inv.id], [id]);
      SameMultiset([inv.id], [id]);
      assert inv.id in [id];
    }
  }

  /** The invoice is there, with this due date, and not paid. */
  ghost predicate Unpaid(f: Facts, id: string, due: int) {
    && (exists inv :: inv in f.invoices && inv.id == id)
    && (forall inv :: inv in f.invoices && inv.id == id
                  ==> inv.due == due && (inv.status == "open" || inv.status == "overdue"))
  }

  lemma UnpaidIsReportedIff(f: Facts, today: int, lastRun: Option<int>, id: string, due: int)
    requires Unpaid(f, id, due)
    ensures Reports(f, today, lastRun, id) <==> WindowStart(today, lastRun) < due <= today
  {
    FilterMembers((i: InvoiceFact) => i.status == "open" || i.status == "overdue" || i.status == "paid", f.invoices);
    var inv :| inv in f.invoices && inv.id == id;
    assert inv in LoadedInvoices(f.invoices);
  }

  // ----- A chain of runs -----

  /** Runs on `days[0]`, `days[1]`, ..., each given its `last_run`, and each followed by operations. */
  function Chain(
      t: Tables, org: nat, fs: seq<Facts>, days: seq<int>, lasts: seq<Option<int>>, gaps: seq<seq<Op>>,
      month: int -> int, h: Hash): Tables
    requires |days| == |lasts| == |gaps| == |fs|
  {
    if fs == [] then t
    else
      var n := |fs| - 1;
      var before := Chain(t, org, fs[..n], days[..n], lasts[..n], gaps[..n], month, h);
      Exec(Persist(before, org, Candidates(fs[n], days[n], lasts[n], month), h), gaps[n], h)
  }

  ghost predicate NonDecreasing(days: seq<int>) {
    forall i, j :: 0 <= i < j < |days| ==> days[i] <= days[j]
  }

  /** Dismissals, audits of runs started by hand, and runs of other organisations. */
  ghost predicate NoRunOf(org: nat, ops: seq<Op>) {
    forall i :: 0 <= i < |ops| ==> ops[i].Run? ==> ops[i].org != org
  }

  lemma {:induction false} OthersKeepKeys(t: Tables, ops: seq<Op>, h: Hash, org: nat)
    requires StoreOk(t, h) && NoRunOf(org, ops)
    ensures Keys(Exec(t, ops, h).insights, org) == Keys(t.insights, org)
  {
    if ops != [] {
      var before := Exec(t, ops[..|ops| - 1], h);
      OthersKeepKeys(t, ops[..|ops| - 1], h, org);
      StoreKeepsItsRows(t, ops[..|ops| - 1], h);
      match ops[|ops| - 1]
      case Run(o, cands) => PersistOk(before, o, cands, h);
      case Dismiss(o, id) => DismissOk(before, o, id, h);
      case Triggered(_) =>
    }
  }

  /** Throughout the chain the invoice is unpaid and ids are clean, and all runs of the organisation are in
      the chain. */
  ghost predicate UnpaidThroughout(org: nat, fs: seq<Facts>, gaps: seq<seq<Op>>, id: string, due: int) {
    && Clean([id])
    && (forall k :: 0 <= k < |fs| ==> Unpaid(fs[k], id, due) && forall inv :: inv in fs[k].invoices ==> Clean([inv.id]))
    && (forall k :: 0 <= k < |gaps| ==> NoRunOf(org, gaps[k]))
  }

  /** The due day falls into the window of run `k`. */
  ghost predicate Covers(days: seq<int>, lasts: seq<Option<int>>, k: int, due: int)
    requires |days| == |lasts|
  {
    0 <= k < |days| && WindowStart(days[k], lasts[k]) < due <= days[k]
  }

  /** An invoice that stays unpaid gets its `late_invoice` row in the chain if and only if its due day falls
      into the window of some run; keys being unique, the row is then the only one. */
  lemma {:induction false} StoredIffSomeWindowCovers(
      t: Tables, org: nat, fs: seq<Facts>, days: seq<int>, lasts: seq<Option<int>>, gaps: seq<seq<Op>>,
      month: int -> int, h: Hash, id: string, due: int)
    requires StoreOk(t, h) && Injective(h) && LateKey(id, h) !in Keys(t.insights, org)
    requires |days| == |lasts| == |gaps| == |fs| && UnpaidThroughout(org, fs, gaps, id, due)
    ensures StoreOk(Chain(t, org, fs, days, lasts, gaps, month, h), h)
    ensures LateKey(id, h) in Keys(Chain(t, org, fs, days, lasts, gaps, month, h).insights, org)
            <==> exists k :: Covers(days, lasts, k, due)
  {
    if fs != [] {
      var n := |fs| - 1;
      StoredIffSomeWindowCovers(t, org, fs[..n], days[..n], lasts[..n], gaps[..n], month, h, id, due);
      var before := Chain(t, org, fs[..n], days[..n], lasts[..n], gaps[..n], month, h);
      var cands := Candidates(fs[n], days[n], lasts[n], month);
      PersistOk(before, org, cands, h);
      StoreKeepsItsRows(Persist(before, org, cands, h), gaps[n], h);
      OthersKeepKeys(Persist(before, org, cands, h), gaps[n], h, org);
      LateKeyIff(fs[n], days[n], lasts[n], month, id, h);
      UnpaidIsReportedIff(fs[n], days[n], lasts[n], id, due);
      CoversSnoc(days, lasts, due);
    }
  }

  lemma CoversSnoc(days: seq<int>, lasts: seq<Option<int>>, due: int)
    requires |days| == |lasts| > 0
    ensures var n := |days| - 1;
      (exists k :: Covers(days, lasts, k, due))
      <==> (exists k :: Covers(days[..n], lasts[..n], k, due)) || WindowStart(days[n], lasts[n]) < due <= days[n]
  {
    var n := |days| - 1;
    if k :| Covers(days[..n], lasts[..n], k, due) {
      assert Covers(days, lasts, k, due);
    }
    if k :| Covers(days, lasts, k, due) {
      assert k < n ==> Covers(days[..n], lasts[..n], k, due);
    }
    assert Covers(days, lasts, n, due) <==> WindowStart(days[n], lasts[n]) < due <= days[n];
  }

  /** Each run looks back to the day before it in the list. */
  function FromPrevious(days: seq<int>): seq<Option<int>>
    requires days != []
  {
    seq(|days| - 1, k requires 0 <= k < |days| - 1 => Some(days[k]))
  }

  lemma PreviousCovers(days: seq<int>, due: int)
    requires days != [] && NonDecreasing(days)
    ensures (exists k :: Covers(days[1..], FromPrevious(days), k, due)) <==> days[0] < due <= days[|days| - 1]
  {
    if k :| Covers(days[1..], FromPrevious(days), k, due) {
      assert days[1..][k] == days[k + 1] && FromPrevious(days)[k] == Some(days[k]);
    }
    if days[0] < due <= days[|days| - 1] {
      var k := FirstDayReaching(days, due);
      assert Covers(days[1..], FromPrevious(days), k, due);
    }
  }

  /** No run is given a `last_run`. */
  function Defaults(n: nat): seq<Option<int>> { seq(n, _ => None) }

  lemma DefaultCovers(days: seq<int>, due: int)
    ensures (exists k :: Covers(days, Defaults(|days|), k, due)) <==> due in days
  {
    if due in days {
      var k :| 0 <= k < |days| && days[k] == due;
      assert Covers(days, Defaults(|days|), k, due);
    }
  }

  /** Along runs on `days[1]`, `days[2]`, ..., each from the day before it, such an invoice gets its row if
      and only if it came due after the first day and by the last. */
  lemma LateInvoiceIsStoredIff(
      t: Tables, org: nat, fs: seq<Facts>, days: seq<int>, gaps: seq<seq<Op>>, month: int -> int, h: Hash,
      id: string, due: int)
    requires StoreOk(t, h) && Injective(h) && LateKey(id, h) !in Keys(t.insights, org)
    requires |days| == |fs| + 1 && |gaps| == |fs| && NonDecreasing(days) && UnpaidThroughout(org, fs, gaps, id, due)
    ensures LateKey(id, h) in Keys(Chain(t, org, fs, days[1..], FromPrevious(days), gaps, month, h).insights, org)
            <==> days[0] < due <= days[|days| - 1]
  {
    StoredIffSomeWindowCovers(t, org, fs, days[1..], FromPrevious(days), gaps, month, h, id, due);
    PreviousCovers(days, due);
  }

  /** With the window both callers of `run_all` leave at its default, such an invoice gets its row if and
      only if some run falls on its due day. */
  lemma DefaultWindowStoresIff(
      t: Tables, org: nat, fs: seq<Facts>, days: seq<int>, gaps: seq<seq<Op>>, month: int -> int, h: Hash,
      id: string, due: int)
    requires StoreOk(t, h) && Injective(h) && LateKey(id, h) !in Keys(t.insights, org)
    requires |days| == |gaps| == |fs| && UnpaidThroughout(org, fs, gaps, id, due)
    ensures LateKey(id, h) in Keys(Chain(t, org, fs, days, Defaults(|days|), gaps, month, h).insights, org)
            <==> due in days
  {
    StoredIffSomeWindowCovers(t, org, fs, days, Defaults(|days|), gaps, month, h, id, due);
    DefaultCovers(days, due);
  }

  /** Run `k` of a chain finds the invoice newly late. */
  ghost predicate RunReports(fs: seq<Facts>, days: seq<int>, k: nat, id: string)
    requires |days| == |fs| + 1 && k < |fs|
  {
    Reports(fs[k], days[k + 1], Some(days[k]), id)
  }

  lemma RunReportsIff(fs: seq<Facts>, days: seq<int>, k: nat, id: string, due: int)
    requires |days| == |fs| + 1 && k < |fs| && Unpaid(fs[k], id, due)
    ensures RunReports(fs, days, k, id) <==> days[k] < due <= days[k + 1]
  {
    UnpaidIsReportedIff(fs[k], days[k + 1], Some(days[k]), id, due);
  }

  /** Exactly one run of the chain finds the invoice newly late, if it came due within it. */
  lemma ExactlyOneRunReports(fs: seq<Facts>, days: seq<int>, id: string, due: int)
    requires |days| == |fs| + 1 && NonDecreasing(days)
    requires forall k :: 0 <= k < |fs| ==> Unpaid(fs[k], id, due)
    ensures days[0] < due <= days[|days| - 1] <==> exists k: nat :: k < |fs| && RunReports(fs, days, k, id)
    ensures forall j: nat, k: nat :: j < k < |fs| ==> !(RunReports(fs, days, j, id) && RunReports(fs, days, k, id))
  {
    forall k: nat | k < |fs| ensures RunReports(fs, days, k, id) <==> days[k] < due <= days[k + 1] {
      RunReportsIff(fs, days, k, id, due);
    }
    if days[0] < due <= days[|days| - 1] {
      var k := FirstDayReaching(days, due);
      assert RunReports(fs, days, k, id);
    }
    forall j: nat, k: nat | j < k < |fs| ensures !(RunReports(fs, days, j, id) && RunReports(fs, days, k, id)) {
      assert days[j + 1] <= days[k];
    }
  }

  lemma {:induction false} FirstDayReaching(days: seq<int>, due: int) returns (k: nat)
    requires days != [] && NonDecreasing(days) && days[0] < due <= days[|days| - 1]
    ensures k + 1 < |days| && days[k] < due <= days[k + 1]
    decreases |days|
  {
    var n := |days| - 1;
    if days[n - 1] < due {
      k := n - 1;
    } else {
      k := FirstDayReaching(days[..n], due);
    }
  }

  /** With the default window a run reports what is due on its own day: an invoice that comes
      due on a day without a run is reported by none. */
  lemma DefaultWindowReportsTheDay(fs: seq<Facts>, days: seq<int>, id: string, due: int)
    requires |days| == |fs| && forall k :: 0 <= k < |fs| ==> Unpaid(fs[k], id, due)
    ensures (exists k :: 0 <= k < |fs| && Reports(fs[k], days[k], None, id)) <==> due in days
  {
    forall k | 0 <= k < |fs| ensures Reports(fs[k], days[k], None, id) <==> days[k] == due {
      UnpaidIsReportedIff(fs[k], days[k], None, id, due);
    }
  }

  // ----- A harmful cut -----

  lemma RunwayCandidatesAre(f: Facts, c: Candidate)
    requires c in RunwayCandidates(f)
    ensures f.latest.Some? && c.kind == RunwayChange && c.evidence == RunwayEvidence(f.latest.value.attribution)
  {
  }

  /** The same facts, read in an order that changes the runway evidence. */
  lemma ReorderedFacts(f: Facts, h: Hash) returns (g: Facts, added: Candidate)
    requires Injective(h) && RunwayCandidates(f) != []
    requires !CutHarmless(f.latest.value.attribution)
    requires forall r :: r in f.latest.value.attribution ==> Clean(r.ids)
    ensures SameFacts(f, g) && added in RunwayCandidates(g) && added.kind == RunwayChange
    ensures forall c :: c in RunwayCandidates(f) ==> KeyOf(c, h) != KeyOf(added, h)
  {
    var a := f.latest.value.attribution;
    var b := HarmfulCut(a);
    g := f.(latest := Some(f.latest.value.(attribution := b)));
    added := RunwayCandidates(g)[0];
    assert added in RunwayCandidates(g);
    RunwayCandidatesAre(g, added);
    DifferentEvidenceDifferentKey(a, b, h);
    forall c | c in RunwayCandidates(f) ensures KeyOf(c, h) != KeyOf(added, h) {
      RunwayCandidatesAre(f, c);
    }
  }

  lemma RunwayCandidateIsCandidate(f: Facts, today: int, lastRun: Option<int>, month: int -> int, c: Candidate)
    requires c in RunwayCandidates(f)
    ensures c in Candidates(f, today, lastRun, month)
  {
  }

  lemma RunwayKeyIsNew(f: Facts, today: int, lastRun: Option<int>, month: int -> int, h: Hash, added: Candidate)
    requires added.kind == RunwayChange && forall c :: c in RunwayCandidates(f) ==> KeyOf(c, h) != KeyOf(added, h)
    ensures KeyOf(added, h) !in CandidateKeys(Candidates(f, today, lastRun, month), h)
  {
    forall c | c in Candidates(f, today, lastRun, month) ensures KeyOf(c, h) != KeyOf(added, h) {
      PartKinds(f, today, lastRun, month, c);
    }
  }

  /** Where the cut of the runway evidence is harmful, the same facts read in some other order make a
      run add an insight that an earlier run had already stored with other evidence. */
  lemma HarmfulCutAddsAgain(f: Facts, today: int, lastRun: Option<int>, month: int -> int, h: Hash, org: nat)
    returns (g: Facts)
    requires Injective(h) && RunwayCandidates(f) != []
    requires !CutHarmless(f.latest.value.attribution)
    requires forall r :: r in f.latest.value.attribution ==> Clean(r.ids)
    ensures SameFacts(f, g)
    ensures var t := Persist(EMPTY, org, Candidates(f, today, lastRun, month), h);
            |Persist(t, org, Candidates(g, today, lastRun, month), h).insights| > |t.insights|
  {
    var added: Candidate;
    g, added := ReorderedFacts(f, h);
    RunwayKeyIsNew(f, today, lastRun, month, h, added);
    RunwayCandidateIsCandidate(g, today, lastRun, month, added);
    SecondRunAdds(Candidates(f, today, lastRun, month), Candidates(g, today, lastRun, month), h, org, added);
  }

  ghost predicate AddsNothing(
      f: Facts, g: Facts, today: int, lastRun: Option<int>, month: int -> int, h: Hash, org: nat)
  {
    var t := Persist(EMPTY, org, Candidates(f, today, lastRun, month), h);
    Persist(t, org, Candidates(g, today, lastRun, month), h) == t
  }

  /** A second run adds nothing, in whatever order it reads the facts, if and only if no runway change
      is put forward or its evidence does not depend on the order. */
  lemma RerunAddsNothingIff(f: Facts, today: int, lastRun: Option<int>, month: int -> int, h: Hash, org: nat)
    requires Injective(h)
    requires f.latest.Some? ==> forall r :: r in f.latest.value.attribution ==> Clean(r.ids)
    ensures (forall g :: SameFacts(f, g) ==> AddsNothing(f, g, today, lastRun, month, h, org)) <==> OrderProof(f)
  {
    if OrderProof(f) {
      forall g | SameFacts(f, g) ensures AddsNothing(f, g, today, lastRun, month, h, org) {
        RerunAddsNothing(EMPTY, org, f, g, [], today, lastRun, month, h);
      }
    } else {
      var g := HarmfulCutAddsAgain(f, today, lastRun, month, h, org);
      assert !AddsNothing(f, g, today, lastRun, month, h, org);
    }
  }

  lemma SecondRunAdds(first: seq<Candidate>, second: seq<Candidate>, h: Hash, org: nat, added: Candidate)
    requires added in second && KeyOf(added, h) !in CandidateKeys(first, h)
    ensures var t := Persist(EMPTY, org, first, h); |Persist(t, org, second, h).insights| > |t.insights|
  {
    assert StoreOk(EMPTY, h);
    PersistOk(EMPTY, org, first, h);
    NewKeyAdds(Persist(EMPTY, org, first, h), org, second, h, added);
  }

  lemma DifferentEvidenceDifferentKey(a: seq<AttributionRow>, b: seq<AttributionRow>, h: Hash)
    requires Injective(h) && multiset(a) == multiset(b) && RunwayEvidence(a) != RunwayEvidence(b)
    requires forall r :: r in a ==> Clean(r.ids)
    ensures h(Canonical(RunwayEvidence(a))) != h(Canonical(RunwayEvidence(b)))
  {
    var x, y := RunwayEvidence(a), RunwayEvidence(b);
    SameMultiset(a, b);
    EvidenceIsClean(a);
    EvidenceIsClean(b);
    if Canonical(x) == Canonical(y) {
      CanonicalIffSameIds(x, y);
      StrLessIsTotal();
      SortSorts(StrLess, Distinct(AllIds(TopRows(a))));
      SortSorts(StrLess, Distinct(AllIds(TopRows(b))));
      SortedUnique(StrLess, x, y);
    }
  }

  lemma EvidenceIsClean(rows: seq<AttributionRow>)
    requires forall r :: r in rows ==> Clean(r.ids)
    ensures Clean(RunwayEvidence(rows))
  {
    LargerDeltaIsWeak();
    SortSorts(LargerDelta, rows);
    forall id | id in RunwayEvidence(rows) ensures id != "" && ',' !in id {
      EvidenceIds(rows, id);
      var r :| r in TopRows(rows) && id in r.ids;
      assert r in rows;
    }
  }

  lemma NewKeyAdds(t: Tables, org: nat, cands: seq<Candidate>, h: Hash, c: Candidate)
    requires StoreOk(t, h) && c in cands && KeyOf(c, h) !in Keys(t.insights, org)
    ensures |Persist(t, org, cands, h).insights| > |t.insights|
  {
    PersistOk(t, org, cands, h);
    var t' := Persist(t, org, cands, h);
    assert KeyOf(c, h) in CandidateKeys(cands, h);
    if |t'.insights| == |t.insights| {
      SameKeys(t, t', org, KeyOf(c, h));
    }
  }
}

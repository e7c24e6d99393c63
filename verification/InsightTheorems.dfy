/** What holds of the insight table over whole lifetimes of runs and dismissals. */
module InsightTheorems {
  import opened Base
  import opened Ordering
  import opened Evidence
  import opened Generators
  import opened Loaders
  import opened RunwayOrder
  import opened Insights

  // ----- The table over any sequence of operations -----

  /** One run with whatever candidates its facts gave, one dismissal, or the audit of a run
      that was triggered by hand. */
  datatype Op = Run(org: nat, cands: seq<Candidate>) | Dismiss(org: nat, id: nat) | Triggered(org: nat)

  function Exec1(t: Tables, op: Op, h: Hash): Tables {
    match op
    case Run(org, cands) => Persist(t, org, cands, h)
    case Dismiss(org, id) => AfterDismiss(t, org, id)
    case Triggered(org) => t.(audits := t.audits + [Audit(org, InsightRun, org)])
  }

  function Exec(t: Tables, ops: seq<Op>, h: Hash): Tables {
    if ops == [] then t else Exec1(Exec(t, ops[..|ops| - 1], h), ops[|ops| - 1], h)
  }

  const EMPTY := Tables([], [], 0)

  ghost predicate UniqueKeys(rows: seq<Insight>) {
    forall i, j :: 0 <= i < j < |rows| && rows[i].org == rows[j].org
      ==> (rows[i].kind, rows[i].hash) != (rows[j].kind, rows[j].hash)
  }

  /** The `insight.created` audits, in order. */
  function CreatedAudits(audits: seq<Audit>): seq<Audit> {
    Filter((a: Audit) => a.action == InsightCreated, audits)
  }

  ghost predicate StoreOk(t: Tables, h: Hash) {
    && (forall i :: 0 <= i < |t.insights| ==>
          t.insights[i].id == i && t.insights[i].hash == h(Canonical(t.insights[i].evidence)))
    && t.nextId == |t.insights|
    && UniqueKeys(t.insights)
    && CreatedAudits(t.audits)
       == Map((r: Insight) => Audit(r.org, InsightCreated, r.id), t.insights)
  }

  /** No row is lost or changed, except that it may have been dismissed. */
  ghost predicate Grows(t: Tables, t': Tables) {
    && |t.insights| <= |t'.insights|
    && forall i :: 0 <= i < |t.insights| ==>
         t'.insights[i] == t.insights[i] || t'.insights[i] == t.insights[i].(dismissed := true)
  }

  lemma KeysOfRow(rows: seq<Insight>, org: nat, k: Key)
    ensures k in Keys(rows, org)
       <==> exists i :: 0 <= i < |rows| && rows[i].org == org && (rows[i].kind, rows[i].hash) == k
  {
  }

  lemma Insert1Ok(t: Tables, org: nat, c: Candidate, h: Hash)
    requires StoreOk(t, h)
    ensures StoreOk(Insert1(t, org, c, h), h) && Grows(t, Insert1(t, org, c, h))
    ensures Keys(Insert1(t, org, c, h).insights, org) == Keys(t.insights, org) + {KeyOf(c, h)}
    ensures forall o :: o != org ==> Keys(Insert1(t, org, c, h).insights, o) == Keys(t.insights, o)
  {
    var key := KeyOf(c, h);
    if key !in Keys(t.insights, org) {
      KeysOfRow(t.insights, org, key);
      var audit := Audit(org, InsightCreated, t.nextId);
      FilterSnoc((a: Audit) => a.action == InsightCreated, t.audits, audit);
      forall o
        ensures Keys(Insert1(t, org, c, h).insights, o) == Keys(t.insights, o) + (if o == org then {key} else {})
      {
        KeysSnoc(t.insights, NewRow(t, org, c, h), o);
      }
    }
  }

  lemma {:induction false} PersistOk(t: Tables, org: nat, cands: seq<Candidate>, h: Hash)
    requires StoreOk(t, h)
    ensures StoreOk(Persist(t, org, cands, h), h) && Grows(t, Persist(t, org, cands, h))
    ensures Keys(Persist(t, org, cands, h).insights, org) == Keys(t.insights, org) + CandidateKeys(cands, h)
    ensures forall o :: o != org ==> Keys(Persist(t, org, cands, h).insights, o) == Keys(t.insights, o)
  {
    if cands != [] {
      var n := |cands| - 1;
      PersistOk(t, org, cands[..n], h);
      Insert1Ok(Persist(t, org, cands[..n], h), org, cands[n], h);
      CandidateKeysSnoc(cands, h);
    }
  }

  function CandidateKeys(cands: seq<Candidate>, h: Hash): set<Key> {
    set c | c in cands :: KeyOf(c, h)
  }

  lemma CandidateKeysSnoc(cands: seq<Candidate>, h: Hash)
    requires cands != []
    ensures CandidateKeys(cands, h)
            == CandidateKeys(cands[..|cands| - 1], h) + {KeyOf(cands[|cands| - 1], h)}
  {
  }

  lemma DismissOk(t: Tables, org: nat, id: nat, h: Hash)
    requires StoreOk(t, h)
    ensures StoreOk(AfterDismiss(t, org, id), h) && Grows(t, AfterDismiss(t, org, id))
    ensures forall o :: Keys(AfterDismiss(t, org, id).insights, o) == Keys(t.insights, o)
  {
    var t' := AfterDismiss(t, org, id);
    if t' != t {
      FilterSnoc((a: Audit) => a.action == InsightCreated, t.audits, Audit(org, InsightDismissed, id));
    }
    forall o, k ensures k in Keys(t'.insights, o) <==> k in Keys(t.insights, o) {
      SameKeys(t, t', o, k);
    }
  }

  lemma SameKeys(t: Tables, t': Tables, o: nat, k: Key)
    requires Grows(t, t') && |t.insights| == |t'.insights|
    ensures k in Keys(t'.insights, o) <==> k in Keys(t.insights, o)
  {
  }

  lemma Exec1Ok(t: Tables, op: Op, h: Hash)
    requires StoreOk(t, h)
    ensures StoreOk(Exec1(t, op, h), h) && Grows(t, Exec1(t, op, h))
    ensures forall o :: Keys(t.insights, o) <= Keys(Exec1(t, op, h).insights, o)
  {
    match op
    case Run(org, cands) =>
      PersistOk(t, org, cands, h);
    case Dismiss(org, id) =>
      DismissOk(t, org, id, h);
    case Triggered(org) =>
      FilterSnoc((a: Audit) => a.action == InsightCreated, t.audits, Audit(org, InsightRun, org));
  }

  /** Over any operations: keys stay unique in each organisation, no row is lost, a row only
      ever becomes dismissed, and `insight.created` audits match the rows one to one. */
  lemma {:induction false} StoreKeepsItsRows(t: Tables, ops: seq<Op>, h: Hash)
    requires StoreOk(t, h)
    ensures StoreOk(Exec(t, ops, h), h) && Grows(t, Exec(t, ops, h))
    ensures forall o :: Keys(t.insights, o) <= Keys(Exec(t, ops, h).insights, o)
  {
    if ops != [] {
      StoreKeepsItsRows(t, ops[..|ops| - 1], h);
      Exec1Ok(Exec(t, ops[..|ops| - 1], h), ops[|ops| - 1], h);
    }
  }

  /** At most one insight for a type and an evidence, ever: in particular one `late_invoice`
      for an invoice and one `commitment_renewal` for a commitment. */
  lemma AtMostOncePerEvidence(ops: seq<Op>, h: Hash, i: nat, j: nat)
    requires i < |Exec(EMPTY, ops, h).insights| && j < |Exec(EMPTY, ops, h).insights|
    requires var rows := Exec(EMPTY, ops, h).insights;
             && rows[i].org == rows[j].org && rows[i].kind == rows[j].kind
             && multiset(rows[i].evidence) == multiset(rows[j].evidence)
    ensures i == j
  {
    StoreKeepsItsRows(EMPTY, ops, h);
    var rows := Exec(EMPTY, ops, h).insights;
    CanonicalForgetsOrder(rows[i].evidence, rows[j].evidence);
  }

  // ----- Running again -----

  ghost predicate SameFacts(f: Facts, g: Facts) {
    && multiset(f.invoices) == multiset(g.invoices)
    && multiset(f.commitments) == multiset(g.commitments)
    && multiset(f.txns) == multiset(g.txns)
    && f.balance == g.balance
    && (f.prev.Some? <==> g.prev.Some?) && (f.prev.Some? ==> f.prev.value.weeks == g.prev.value.weeks)
    && (f.latest.Some? <==> g.latest.Some?)
    && (f.latest.Some? ==>
          && f.latest.value.weeks == g.latest.value.weeks
          && multiset(f.latest.value.attribution) == multiset(g.latest.value.attribution))
  }

  lemma LargestFirstIsWeak()
    ensures StrictWeak(LargestFirst)
  {
    StrLessIsTotal();
    forall a, b, c | LargestFirst(a, b) && LargestFirst(b, c) ensures LargestFirst(a, c) {
      if Abs(a.1) == Abs(c.1) {
        assert StrLess(a.0, b.0) && StrLess(b.0, c.0);
      }
    }
    forall a, b, c | LargestFirst(a, c) ensures LargestFirst(a, b) || LargestFirst(b, c) {
      if Abs(a.1) == Abs(b.1) && Abs(b.1) == Abs(c.1) {
        assert StrLess(a.0, c.0);
        assert StrLess(a.0, b.0) || StrLess(b.0, c.0);
      }
    }
  }

  lemma OutflowsSeparate(drops: seq<(string, real)>)
    requires forall t :: t in drops ==> t.1 < 0.0
    ensures Separates(LargestFirst, drops)
  {
    StrLessIsTotal();
    forall x, y | x in drops && y in drops && !LargestFirst(x, y) && !LargestFirst(y, x) ensures x == y {
      assert Abs(x.1) == Abs(y.1);
      assert StrLess(x.0, y.0) || StrLess(y.0, x.0) || x.0 == y.0;
    }
  }

  lemma CashForgetsOrder(balance: Option<real>, a: seq<Txn>, b: seq<Txn>, today: int)
    requires multiset(a) == multiset(b)
    ensures CashHistory(balance, a, today).0 == CashHistory(balance, b, today).0
    ensures EvidenceFromTransactions(CashHistory(balance, a, today).1)
            == EvidenceFromTransactions(CashHistory(balance, b, today).1)
  {
    var ra, rb := Recent(a, today), Recent(b, today);
    FilterForgetsOrder((t: Txn) => t.date >= today - 21, a, b);
    WeeksForgetOrder(ra, rb);
    var weeks := Weeks(ra);
    EndingCashForgetsOrder(weeks, ra, rb, balance);
    if weeks != [] {
      var w := weeks[|weeks| - 1];
      FilterForgetsOrder((t: Txn) => WeekOf(t) == w, ra, rb);
      MapForgetsOrder((t: Txn) => (t.id, t.amount),
                      Filter((t: Txn) => WeekOf(t) == w, ra), Filter((t: Txn) => WeekOf(t) == w, rb));
      DropsForgetOrder(InWeek(ra, w), InWeek(rb, w));
    }
  }

  lemma WeeksForgetOrder(a: seq<Txn>, b: seq<Txn>)
    requires multiset(a) == multiset(b)
    ensures Weeks(a) == Weeks(b)
  {
    MapForgetsOrder(WeekOf, a, b);
    SameMultiset(Map(WeekOf, a), Map(WeekOf, b));
    SortedKeysForgetOrder(Map(WeekOf, a), Map(WeekOf, b));
  }

  lemma EndingCashForgetsOrder(weeks: seq<int>, a: seq<Txn>, b: seq<Txn>, balance: Option<real>)
    requires multiset(a) == multiset(b)
    ensures balance.Some? ==> EndingCash(weeks, a, balance.value) == EndingCash(weeks, b, balance.value)
  {
    forall k: nat | k <= |weeks| ensures NetFrom(weeks, a, k) == NetFrom(weeks, b, k) {
      NetFromForgetsOrder(weeks, a, b, k);
    }
  }

  lemma {:induction false} NetFromForgetsOrder(weeks: seq<int>, a: seq<Txn>, b: seq<Txn>, k: nat)
    requires multiset(a) == multiset(b) && k <= |weeks|
    ensures NetFrom(weeks, a, k) == NetFrom(weeks, b, k)
    decreases |weeks| - k
  {
    if k < |weeks| {
      SumForgetsOrder((t: Txn) => if WeekOf(t) == weeks[k] then t.amount else 0.0, a, b);
      NetFromForgetsOrder(weeks, a, b, k + 1);
    }
  }

  lemma DropsForgetOrder(a: seq<(string, real)>, b: seq<(string, real)>)
    requires multiset(a) == multiset(b)
    ensures EvidenceFromTransactions(Outflows(a)) == EvidenceFromTransactions(Outflows(b))
  {
    FilterForgetsOrder((t: (string, real)) => t.1 < 0.0, a, b);
    FilterMembers((t: (string, real)) => t.1 < 0.0, a);
    OutflowsSeparate(Outflows(a));
    LargestFirstIsWeak();
    SortForgetsOrder(LargestFirst, Outflows(a), Outflows(b));
  }

  lemma LateForgetsOrder(today: int, a: seq<InvoiceFact>, b: seq<InvoiceFact>, lastRun: Option<int>)
    requires multiset(a) == multiset(b)
    ensures multiset(NewlyLate(today, LoadedInvoices(a), lastRun))
         == multiset(NewlyLate(today, LoadedInvoices(b), lastRun))
  {
    var last := WindowStart(today, lastRun);
    var p := (inv: InvoiceFact) => CrossedLate(inv, today, last);
    FilterForgetsOrder((i: InvoiceFact) => i.status == "open" || i.status == "overdue" || i.status == "paid", a, b);
    FilterForgetsOrder(p, LoadedInvoices(a), LoadedInvoices(b));
    MapForgetsOrder(LateCandidate, Filter(p, LoadedInvoices(a)), Filter(p, LoadedInvoices(b)));
  }

  lemma {:induction false} SortKeepsElements(s: seq<Candidate>)
    ensures multiset(Sort(ById, s)) == multiset(s)
  {
    if s != [] {
      SortKeepsElements(s[1..]);
      InsertKeepsElements(s[0], Sort(ById, s[1..]));
      assert s == [s[0]] + s[1..];
    }
  }

  lemma {:induction false} InsertKeepsElements(c: Candidate, s: seq<Candidate>)
    ensures multiset(Insert(ById, c, s)) == multiset([c]) + multiset(s)
  {
    if s == [] || !ById(s[0], c) {
      assert multiset([c] + s) == multiset([c]) + multiset(s);
    } else {
      InsertKeepsElements(c, s[1..]);
      assert s == [s[0]] + s[1..];
    }
  }

  lemma RenewalsForgetOrder(today: int, a: seq<CommitmentFact>, b: seq<CommitmentFact>)
    requires multiset(a) == multiset(b)
    ensures multiset(Renewals(today, a)) == multiset(Renewals(today, b))
  {
    var p := (c: CommitmentFact) => RenewsSoon(c, today);
    FilterForgetsOrder(p, a, b);
    MapForgetsOrder(RenewalCandidate, Filter(p, a), Filter(p, b));
    SortKeepsElements(Map(RenewalCandidate, Filter(p, a)));
    SortKeepsElements(Map(RenewalCandidate, Filter(p, b)));
  }

  lemma HistoryForgetsOrder(a: seq<Txn>, b: seq<Txn>, v: string, latest: int, month: int -> int)
    requires multiset(a) == multiset(b)
    ensures var x, y := HistoryOf(a, v, latest, month), HistoryOf(b, v, latest, month);
            && x.monthlyTotals == y.monthlyTotals && multiset(x.latestIds) == multiset(y.latestIds)
  {
    var ofVendor, monthOf := (t: Txn) => Vendor(t) == v, (t: Txn) => month(t.date);
    FilterForgetsOrder(ofVendor, a, b);
    MapForgetsOrder(monthOf, Filter(ofVendor, a), Filter(ofVendor, b));
    SameMultiset(Months(a, v, month), Months(b, v, month));
    SortedKeysForgetOrder(Months(a, v, month), Months(b, v, month));
    forall m ensures Spend(a, v, m, month) == Spend(b, v, m, month) {
      SumForgetsOrder((t: Txn) => if Vendor(t) == v && month(t.date) == m then -t.amount else 0.0, a, b);
    }
    var inMonth := (t: Txn) => Vendor(t) == v && month(t.date) == latest;
    FilterForgetsOrder(inMonth, a, b);
    MapForgetsOrder((t: Txn) => t.id, Filter(inMonth, a), Filter(inMonth, b));
  }

  lemma SpikeForgetsOrder(x: VendorHistory, y: VendorHistory)
    requires x.monthlyTotals == y.monthlyTotals && multiset(x.latestIds) == multiset(y.latestIds)
    ensures Spikes(x) == Spikes(y) && SpikeCandidate(x) == SpikeCandidate(y)
  {
    StrLessIsTotal();
    SortForgetsOrder(StrLess, x.latestIds, y.latestIds);
  }

  lemma SpikesForgetOrder(a: seq<Txn>, b: seq<Txn>, today: int, month: int -> int, c: Candidate)
    requires multiset(a) == multiset(b)
    requires c in VendorSpikes(VendorHistories(a, today, month))
    ensures c in VendorSpikes(VendorHistories(b, today, month))
  {
    var ra, rb := Spending(a, today), Spending(b, today);
    FilterForgetsOrder((t: Txn) => t.date >= today - 400 && t.amount < 0.0 && Vendor(t) != "", a, b);
    var p := (v: VendorHistory) => Spikes(v);
    var ha, hb := VendorHistories(a, today, month), VendorHistories(b, today, month);
    MapMembers(SpikeCandidate, Filter(p, ha));
    FilterMembers(p, ha);
    var x :| x in Filter(p, ha) && SpikeCandidate(x) == c;
    MapMembers(v => HistoryOf(ra, v, month(today), month), Distinct(Map(Vendor, ra)));
    var v :| v in Distinct(Map(Vendor, ra)) && HistoryOf(ra, v, month(today), month) == x;
    VendorsForgetOrder(ra, rb, v);
    MapMembers(v => HistoryOf(rb, v, month(today), month), Distinct(Map(Vendor, rb)));
    var y := HistoryOf(rb, v, month(today), month);
    HistoryForgetsOrder(ra, rb, v, month(today), month);
    SpikeForgetsOrder(x, y);
    FilterMembers(p, hb);
    MapMembers(SpikeCandidate, Filter(p, hb));
    assert y in hb && y in Filter(p, hb);
  }

  lemma VendorsForgetOrder(a: seq<Txn>, b: seq<Txn>, v: string)
    requires multiset(a) == multiset(b) && v in Distinct(Map(Vendor, a))
    ensures v in Distinct(Map(Vendor, b))
  {
    MapForgetsOrder(Vendor, a, b);
    SameMultiset(Map(Vendor, a), Map(Vendor, b));
    DistinctIs(Map(Vendor, a));
    DistinctIs(Map(Vendor, b));
  }

  lemma CashCandidatesForgetOrder(f: Facts, g: Facts, today: int)
    requires SameFacts(f, g)
    ensures CashCandidates(f, today) == CashCandidates(g, today)
  {
    CashForgetsOrder(f.balance, f.txns, g.txns, today);
  }

  /** A runway change is not put forward, or its evidence does not depend on the order of the rows. */
  ghost predicate OrderProof(f: Facts) {
    RunwayCandidates(f) != [] ==> CutHarmless(f.latest.value.attribution)
  }

  lemma RunwayCandidatesForgetOrder(f: Facts, g: Facts)
    requires SameFacts(f, g) && OrderProof(f)
    ensures RunwayCandidates(f) == RunwayCandidates(g)
  {
    if RunwayCandidates(f) != [] {
      EvidenceForgetsOrder(f.latest.value.attribution, g.latest.value.attribution);
    }
  }

  lemma OrderProofForgetsOrder(f: Facts, g: Facts)
    requires SameFacts(f, g) && OrderProof(f)
    ensures OrderProof(g)
  {
    if RunwayCandidates(g) != [] {
      HarmlessForgetsOrder(f.latest.value.attribution, g.latest.value.attribution);
    }
  }

  /** Reading the same facts in another order gives the same candidates, if a runway change put forward
      has evidence that does not depend on the order. */
  lemma CandidatesForgetOrder(f: Facts, g: Facts, today: int, lastRun: Option<int>, month: int -> int, c: Candidate)
    requires SameFacts(f, g) && OrderProof(f)
    requires c in Candidates(f, today, lastRun, month)
    ensures c in Candidates(g, today, lastRun, month)
  {
    var lateF := NewlyLate(today, LoadedInvoices(f.invoices), lastRun);
    var lateG := NewlyLate(today, LoadedInvoices(g.invoices), lastRun);
    var spikesF := VendorSpikes(VendorHistories(f.txns, today, month));
    var spikesG := VendorSpikes(VendorHistories(g.txns, today, month));
    var renewF, renewG := Renewals(today, f.commitments), Renewals(today, g.commitments);
    CashCandidatesForgetOrder(f, g, today);
    RunwayCandidatesForgetOrder(f, g);
    LateForgetsOrder(today, f.invoices, g.invoices, lastRun);
    RenewalsForgetOrder(today, f.commitments, g.commitments);
    if c in spikesF {
      SpikesForgetOrder(f.txns, g.txns, today, month, c);
    }
    InOneOfFive(CashCandidates(f, today), lateF, spikesF, renewF, RunwayCandidates(f), c);
    InOneOfFive(CashCandidates(g, today), lateG, spikesG, renewG, RunwayCandidates(g), c);
    SameMultiset(lateF, lateG);
    SameMultiset(renewF, renewG);
  }

  lemma InOneOfFive(
      a: seq<Candidate>, b: seq<Candidate>, c: seq<Candidate>, d: seq<Candidate>, e: seq<Candidate>, x: Candidate)
    ensures x in a + b + c + d + e <==> x in a || x in b || x in c || x in d || x in e
  {
  }

  lemma {:induction false} KnownCandidatesAddNothing(t: Tables, org: nat, cands: seq<Candidate>, h: Hash)
    requires CandidateKeys(cands, h) <= Keys(t.insights, org)
    ensures Persist(t, org, cands, h) == t
  {
    if cands != [] {
      CandidateKeysSnoc(cands, h);
      KnownCandidatesAddNothing(t, org, cands[..|cands| - 1], h);
      assert KeyOf(cands[|cands| - 1], h) in CandidateKeys(cands, h);
    }
  }

  /** Once a run has committed, a later run on the same facts, read in any order and after any
      operations in between, adds nothing. */
  lemma RerunAddsNothing(
      t: Tables, org: nat, f: Facts, g: Facts, ops: seq<Op>,
      today: int, lastRun: Option<int>, month: int -> int, h: Hash)
    requires StoreOk(t, h) && SameFacts(f, g) && OrderProof(f)
    ensures var t1 := Exec(Persist(t, org, Candidates(f, today, lastRun, month), h), ops, h);
            Persist(t1, org, Candidates(g, today, lastRun, month), h) == t1
  {
    var cf, cg := Candidates(f, today, lastRun, month), Candidates(g, today, lastRun, month);
    var t0 := Persist(t, org, cf, h);
    PersistOk(t, org, cf, h);
    StoreKeepsItsRows(t0, ops, h);
    assert SameFacts(g, f);
    OrderProofForgetsOrder(f, g);
    forall c | c in cg ensures KeyOf(c, h) in CandidateKeys(cf, h) {
      CandidatesForgetOrder(g, f, today, lastRun, month, c);
    }
    KnownCandidatesAddNothing(Exec(t0, ops, h), org, cg, h);
  }

  /** The latest forecast is one that `compute_forecast` stored, its rows read in any order. */
  ghost predicate StoredForecast(f: Facts) {
    f.latest.Some? ==>
      exists monday: int, horizon: nat, delta: real, ids: seq<string> ::
        multiset(f.latest.value.attribution) == multiset(ForecastRows(monday, horizon, delta, ids))
  }

  lemma StoredForecastIsOrderProof(f: Facts)
    requires StoredForecast(f)
    ensures OrderProof(f)
  {
    if f.latest.Some? {
      var monday: int, horizon: nat, delta: real, ids: seq<string> :|
        multiset(f.latest.value.attribution) == multiset(ForecastRows(monday, horizon, delta, ids));
      StoredForecastsAreHarmless(monday, horizon, delta, ids);
      HarmlessForgetsOrder(ForecastRows(monday, horizon, delta, ids), f.latest.value.attribution);
    }
  }

  /** With the forecasts this system stores, a later run on the same facts adds nothing, whatever the
      order they are read in. */
  lemma RerunOnStoredForecastAddsNothing(
      t: Tables, org: nat, f: Facts, g: Facts, ops: seq<Op>,
      today: int, lastRun: Option<int>, month: int -> int, h: Hash)
    requires StoreOk(t, h) && SameFacts(f, g) && StoredForecast(f)
    ensures var t1 := Exec(Persist(t, org, Candidates(f, today, lastRun, month), h), ops, h);
            Persist(t1, org, Candidates(g, today, lastRun, month), h) == t1
  {
    StoredForecastIsOrderProof(f);
    RerunAddsNothing(t, org, f, g, ops, today, lastRun, month, h);
  }
}

/** When the rows a run stores depend on the order in which its facts are read. */
module InsightReadings {
  import opened Base
  import opened Ordering
  import opened Evidence
  import opened Generators
  import opened Loaders
  import opened Insights
  import opened InsightTheorems
  import opened LateInvoices
  import opened InsightRows

  predicate CleanId(id: string) { id != "" && ',' !in id }

  /** Ids are primary keys, not empty and without commas. */
  ghost predicate PrimaryKeys(f: Facts) {
    && (forall x, y :: x in f.invoices && y in f.invoices && x.id == y.id ==> x == y)
    && (forall x, y :: x in f.commitments && y in f.commitments && x.id == y.id ==> x == y)
    && (forall x, y :: x in f.txns && y in f.txns && x.id == y.id ==> x == y)
    && (forall x :: x in f.invoices ==> CleanId(x.id))
    && (forall x :: x in f.commitments ==> CleanId(x.id))
    && (forall x :: x in f.txns ==> CleanId(x.id))
  }

  /** The vendor spikes and has no transaction in the current month. */
  predicate Idless(v: VendorHistory) { Spikes(v) && v.latestIds == [] }

  /** All vendors that spike without ids have one severity. */
  ghost predicate OneSeverity(histories: seq<VendorHistory>) {
    forall v, w :: v in histories && w in histories && Idless(v) && Idless(w)
      ==> SpikeCandidate(v).severity == SpikeCandidate(w).severity
  }

  /** The key of all vendor spikes without ids. */
  function IdlessKey(h: Hash): Key { (VendorSpike, h(Canonical([]))) }

  // ----- Equal keys, equal candidates -----

  lemma OneIdOneKey(a: Candidate, b: Candidate, x: string, y: string, h: Hash)
    requires a.evidence == [x] && b.evidence == [y] && CleanId(x) && CleanId(y)
    requires Injective(h) && KeyOf(a, h) == KeyOf(b, h)
    ensures x == y
  {
    CanonicalIffSameIds([x], [y]);
    SameMultiset([x], [y]);
    assert x in [y];
  }

  lemma LateAgree(f: Facts, today: int, lastRun: Option<int>, h: Hash, c: Candidate, d: Candidate)
    requires PrimaryKeys(f) && Injective(h) && KeyOf(c, h) == KeyOf(d, h)
    requires c in NewlyLate(today, LoadedInvoices(f.invoices), lastRun)
    requires d in NewlyLate(today, LoadedInvoices(f.invoices), lastRun)
    ensures c == d
  {
    var loaded := LoadedInvoices(f.invoices);
    LateMembers(today, loaded, lastRun, c);
    LateMembers(today, loaded, lastRun, d);
    var i :| i in loaded && CrossedLate(i, today, WindowStart(today, lastRun)) && c == LateCandidate(i);
    var j :| j in loaded && CrossedLate(j, today, WindowStart(today, lastRun)) && d == LateCandidate(j);
    LoadedIsOf(f, i);
    LoadedIsOf(f, j);
    assert CleanId(i.id) && CleanId(j.id);
    OneIdOneKey(c, d, i.id, j.id, h);
  }

  lemma LoadedIsOf(f: Facts, inv: InvoiceFact)
    requires inv in LoadedInvoices(f.invoices)
    ensures inv in f.invoices
  {
    FilterMembers((i: InvoiceFact) => i.status == "open" || i.status == "overdue" || i.status == "paid", f.invoices);
  }

  lemma RenewalsAgree(f: Facts, today: int, h: Hash, c: Candidate, d: Candidate)
    requires PrimaryKeys(f) && Injective(h) && KeyOf(c, h) == KeyOf(d, h)
    requires c in Renewals(today, f.commitments) && d in Renewals(today, f.commitments)
    ensures c == d
  {
    RenewalMembers(today, f.commitments, c);
    RenewalMembers(today, f.commitments, d);
    var m :| m in f.commitments && RenewsSoon(m, today) && c == RenewalCandidate(m);
    var n :| n in f.commitments && RenewsSoon(n, today) && d == RenewalCandidate(n);
    assert CleanId(m.id) && CleanId(n.id);
    OneIdOneKey(c, d, m.id, n.id, h);
  }

  lemma SpikeMembers(histories: seq<VendorHistory>, c: Candidate)
    ensures c in VendorSpikes(histories) <==> exists v :: v in histories && Spikes(v) && c == SpikeCandidate(v)
  {
    var p := (v: VendorHistory) => Spikes(v);
    FilterMembers(p, histories);
    MapMembers(SpikeCandidate, Filter(p, histories));
  }

  /** Where the histories come from. */
  lemma HistoryIsOf(txns: seq<Txn>, today: int, month: int -> int, x: VendorHistory) returns (v: string)
    requires x in VendorHistories(txns, today, month)
    ensures v in Map(Vendor, Spending(txns, today))
    ensures x == HistoryOf(Spending(txns, today), v, month(today), month)
  {
    var rows := Spending(txns, today);
    var vendors := Distinct(Map(Vendor, rows));
    MapMembers(v => HistoryOf(rows, v, month(today), month), vendors);
    v :| v in vendors && HistoryOf(rows, v, month(today), month) == x;
    DistinctIs(Map(Vendor, rows));
  }

  lemma IdIsOf(rows: seq<Txn>, v: string, m: int, month: int -> int, id: string) returns (t: Txn)
    requires id in Ids(rows, v, m, month)
    ensures t in rows && t.id == id && Vendor(t) == v
  {
    var p := (t: Txn) => Vendor(t) == v && month(t.date) == m;
    MapMembers((t: Txn) => t.id, Filter(p, rows));
    FilterMembers(p, rows);
    t :| t in Filter(p, rows) && t.id == id;
  }

  lemma SpendingIsOf(f: Facts, today: int, t: Txn)
    requires t in Spending(f.txns, today)
    ensures t in f.txns
  {
    FilterMembers((t: Txn) => t.date >= today - 400 && t.amount < 0.0 && Vendor(t) != "", f.txns);
  }

  /** Two vendors have an id in common only if they are one. */
  lemma SharedIdSameHistory(
      f: Facts, today: int, month: int -> int, x: VendorHistory, y: VendorHistory, id: string)
    requires PrimaryKeys(f) && id in x.latestIds && id in y.latestIds
    requires x in VendorHistories(f.txns, today, month) && y in VendorHistories(f.txns, today, month)
    ensures x == y
  {
    var rows := Spending(f.txns, today);
    var v := HistoryIsOf(f.txns, today, month, x);
    var w := HistoryIsOf(f.txns, today, month, y);
    var t := IdIsOf(rows, v, month(today), month, id);
    var u := IdIsOf(rows, w, month(today), month, id);
    SpendingIsOf(f, today, t);
    SpendingIsOf(f, today, u);
  }

  lemma LatestIdsAreClean(f: Facts, today: int, month: int -> int, x: VendorHistory)
    requires PrimaryKeys(f) && x in VendorHistories(f.txns, today, month)
    ensures Clean(x.latestIds)
  {
    var v := HistoryIsOf(f.txns, today, month, x);
    forall id | id in x.latestIds ensures CleanId(id) {
      var t := IdIsOf(Spending(f.txns, today), v, month(today), month, id);
      SpendingIsOf(f, today, t);
    }
  }

  lemma SpikeEvidence(x: VendorHistory)
    requires Spikes(x)
    ensures multiset(SpikeCandidate(x).evidence) == multiset(x.latestIds)
    ensures forall id :: id in SpikeCandidate(x).evidence <==> id in x.latestIds
  {
    StrLessIsTotal();
    SortSorts(StrLess, x.latestIds);
  }

  lemma SpikesAgree(f: Facts, today: int, month: int -> int, h: Hash, x: VendorHistory, y: VendorHistory)
    requires PrimaryKeys(f) && Injective(h) && Spikes(x) && Spikes(y)
    requires x in VendorHistories(f.txns, today, month) && y in VendorHistories(f.txns, today, month)
    requires KeyOf(SpikeCandidate(x), h) == KeyOf(SpikeCandidate(y), h)
    ensures x == y || (Idless(x) && Idless(y))
  {
    SpikeEvidence(x);
    SpikeEvidence(y);
    LatestIdsAreClean(f, today, month, x);
    LatestIdsAreClean(f, today, month, y);
    CanonicalIffSameIds(SpikeCandidate(x).evidence, SpikeCandidate(y).evidence);
    SameMultiset(x.latestIds, y.latestIds);
    if x.latestIds != [] {
      SharedIdSameHistory(f, today, month, x, y, x.latestIds[0]);
    }
  }

  lemma SpikeCandidatesAgree(f: Facts, today: int, month: int -> int, h: Hash, c: Candidate, d: Candidate)
    requires PrimaryKeys(f) && Injective(h) && KeyOf(c, h) == KeyOf(d, h)
    requires var histories := VendorHistories(f.txns, today, month);
      c in VendorSpikes(histories) && d in VendorSpikes(histories)
      && (KeyOf(c, h) == IdlessKey(h) ==> OneSeverity(histories))
    ensures c == d
  {
    var histories := VendorHistories(f.txns, today, month);
    SpikeMembers(histories, c);
    SpikeMembers(histories, d);
    var x :| x in histories && Spikes(x) && c == SpikeCandidate(x);
    var y :| y in histories && Spikes(y) && d == SpikeCandidate(y);
    SpikesAgree(f, today, month, h, x, y);
  }

  lemma OnlyOne<T>(s: seq<T>, x: T, y: T)
    requires |s| <= 1 && x in s && y in s
    ensures x == y
  {
  }

  lemma OneCashDrop(f: Facts, today: int)
    ensures |CashCandidates(f, today)| <= 1
  {
  }

  lemma OneRunwayChange(f: Facts)
    ensures |RunwayCandidates(f)| <= 1
  {
  }

  /** The two detectors that look at one series put forward at most one candidate. */
  lemma SingleAgree(f: Facts, today: int, c: Candidate, d: Candidate)
    requires (c in CashCandidates(f, today) && d in CashCandidates(f, today))
          || (c in RunwayCandidates(f) && d in RunwayCandidates(f))
    ensures c == d
  {
    OneCashDrop(f, today);
    OneRunwayChange(f);
    if c in CashCandidates(f, today) && d in CashCandidates(f, today) {
      OnlyOne(CashCandidates(f, today), c, d);
    } else {
      OnlyOne(RunwayCandidates(f), c, d);
    }
  }

  lemma CandidatesAgree(
      t: Tables, org: nat, f: Facts, today: int, lastRun: Option<int>, month: int -> int, h: Hash)
    requires PrimaryKeys(f) && Injective(h)
    requires IdlessKey(h) in Keys(t.insights, org) || OneSeverity(VendorHistories(f.txns, today, month))
    ensures KeysAgree(t, org, Candidates(f, today, lastRun, month), h)
  {
    var cands := Candidates(f, today, lastRun, month);
    forall c, d | c in cands && d in cands && KeyOf(c, h) == KeyOf(d, h) && KeyOf(c, h) !in Keys(t.insights, org)
      ensures c == d
    {
      TwoCandidatesAgree(f, today, lastRun, month, h, c, d);
    }
  }

  lemma TwoCandidatesAgree(
      f: Facts, today: int, lastRun: Option<int>, month: int -> int, h: Hash, c: Candidate, d: Candidate)
    requires PrimaryKeys(f) && Injective(h) && KeyOf(c, h) == KeyOf(d, h)
    requires c in Candidates(f, today, lastRun, month) && d in Candidates(f, today, lastRun, month)
    requires KeyOf(c, h) == IdlessKey(h) ==> OneSeverity(VendorHistories(f.txns, today, month))
    ensures c == d
  {
    PartKinds(f, today, lastRun, month, c);
    PartKinds(f, today, lastRun, month, d);
    match c.kind
    case CashDrop => SingleAgree(f, today, c, d);
    case LateInvoice => LateAgree(f, today, lastRun, h, c, d);
    case VendorSpike => SpikeCandidatesAgree(f, today, month, h, c, d);
    case CommitmentRenewal => RenewalsAgree(f, today, h, c, d);
    case RunwayChange => SingleAgree(f, today, c, d);
  }

  // ----- One vendor's transactions first -----

  function IsOf(v: string): Txn -> bool { (t: Txn) => Vendor(t) == v }

  /** The same facts, with the transactions of one vendor read first. */
  function VendorFirst(f: Facts, v: string): Facts {
    f.(txns := Filter(IsOf(v), f.txns) + Filter(Not(IsOf(v)), f.txns))
  }

  lemma {:induction false} DistinctKeepsFirst<T>(s: seq<T>)
    requires s != []
    ensures Distinct(s) != [] && Distinct(s)[0] == s[0]
  {
    if |s| > 1 {
      DistinctKeepsFirst(s[..|s| - 1]);
    } else {
      assert s[..0] == [];
    }
  }

  lemma SpendingStartsWith(f: Facts, today: int, v: string)
    requires v in Map(Vendor, Spending(f.txns, today))
    ensures var rows := Spending(VendorFirst(f, v).txns, today); rows != [] && Vendor(rows[0]) == v
  {
    var p := (t: Txn) => t.date >= today - 400 && t.amount < 0.0 && Vendor(t) != "";
    var front := Filter(IsOf(v), f.txns);
    MapMembers(Vendor, Spending(f.txns, today));
    FilterMembers(p, f.txns);
    FilterMembers(IsOf(v), f.txns);
    FilterMembers(p, front);
    FilterConcat(p, front, Filter(Not(IsOf(v)), f.txns));
    var t :| t in Spending(f.txns, today) && Vendor(t) == v;
    assert t in Filter(p, front);
    assert Filter(p, front)[0] in Filter(p, front);
  }

  /** Then that vendor's spike comes before all others. */
  lemma SpikeComesFirst(f: Facts, today: int, month: int -> int, x: VendorHistory) returns (g: Facts)
    requires x in VendorHistories(f.txns, today, month) && Spikes(x)
    ensures SameFacts(f, g) && g.invoices == f.invoices
    ensures var spikes := VendorSpikes(VendorHistories(g.txns, today, month));
      spikes != [] && spikes[0] == SpikeCandidate(x)
  {
    var v := HistoryIsOf(f.txns, today, month, x);
    g := VendorFirst(f, v);
    FilterSplits(IsOf(v), f.txns);
    SpendingStartsWith(f, today, v);
    var ra, rb := Spending(f.txns, today), Spending(g.txns, today);
    FilterForgetsOrder((t: Txn) => t.date >= today - 400 && t.amount < 0.0 && Vendor(t) != "", f.txns, g.txns);
    HistoryForgetsOrder(ra, rb, v, month(today), month);
    DistinctKeepsFirst(Map(Vendor, rb));
    var histories := VendorHistories(g.txns, today, month);
    assert histories[0] == HistoryOf(rb, v, month(today), month);
    SpikeForgetsOrder(x, histories[0]);
    FirstSpikes(histories);
  }

  lemma FirstSpikes(histories: seq<VendorHistory>)
    requires histories != [] && Spikes(histories[0])
    ensures VendorSpikes(histories) != [] && VendorSpikes(histories)[0] == SpikeCandidate(histories[0])
  {
  }

  lemma KindsBefore(f: Facts, today: int, lastRun: Option<int>, h: Hash, key: Key)
    requires key.0 == VendorSpike
    ensures key !in CandidateKeys(CashCandidates(f, today) + NewlyLate(today, LoadedInvoices(f.invoices), lastRun), h)
  {
    var cash, late := CashCandidates(f, today), NewlyLate(today, LoadedInvoices(f.invoices), lastRun);
    forall c | c in cash + late ensures KeyOf(c, h) != key {
      if c in late {
        LateKinds(today, LoadedInvoices(f.invoices), lastRun, c);
      }
    }
  }

  lemma FirstSpikeIsAdded(
      t: Tables, org: nat, g: Facts, today: int, lastRun: Option<int>, month: int -> int, h: Hash, c: Candidate)
    requires StoreOk(t, h) && KeyOf(c, h) !in Keys(t.insights, org) && c.kind == VendorSpike
    requires var spikes := VendorSpikes(VendorHistories(g.txns, today, month)); spikes != [] && spikes[0] == c
    ensures c in Added(t, org, Candidates(g, today, lastRun, month), h)
  {
    var spikes := VendorSpikes(VendorHistories(g.txns, today, month));
    var before := CashCandidates(g, today) + NewlyLate(today, LoadedInvoices(g.invoices), lastRun);
    var after := spikes[1..] + Renewals(today, g.commitments) + RunwayCandidates(g);
    KindsBefore(g, today, lastRun, h, KeyOf(c, h));
    NewKeyIsAdded(t, org, before, c, after, h);
    Regrouped(CashCandidates(g, today), NewlyLate(today, LoadedInvoices(g.invoices), lastRun), spikes,
              Renewals(today, g.commitments), RunwayCandidates(g));
  }

  lemma Regrouped<T>(a: seq<T>, b: seq<T>, s: seq<T>, d: seq<T>, e: seq<T>)
    requires s != []
    ensures a + b + s + d + e == (a + b) + [s[0]] + (s[1..] + d + e)
  {
    assert s == [s[0]] + s[1..];
  }

  ghost predicate ReadingsAgree(
      t: Tables, org: nat, f: Facts, g: Facts, today: int, lastRun: Option<int>, month: int -> int, h: Hash)
  {
    SameRows(t, org, Candidates(f, today, lastRun, month), Candidates(g, today, lastRun, month), h)
  }

  /** If two vendors spike without ids and with different severities, some other order of the transactions
      makes the run store another row. */
  lemma SomeReadingDiffers(
      t: Tables, org: nat, f: Facts, today: int, lastRun: Option<int>, month: int -> int, h: Hash)
    returns (g: Facts)
    requires StoreOk(t, h) && IdlessKey(h) !in Keys(t.insights, org)
    requires !OneSeverity(VendorHistories(f.txns, today, month))
    ensures SameFacts(f, g) && !ReadingsAgree(t, org, f, g, today, lastRun, month, h)
  {
    var histories := VendorHistories(f.txns, today, month);
    var x, y :| x in histories && y in histories && Idless(x) && Idless(y)
             && SpikeCandidate(x).severity != SpikeCandidate(y).severity;
    var c, d := SpikeCandidate(x), SpikeCandidate(y);
    var gx := SpikeComesFirst(f, today, month, x);
    var gy := SpikeComesFirst(f, today, month, y);
    FirstSpikeIsAdded(t, org, gx, today, lastRun, month, h, c);
    FirstSpikeIsAdded(t, org, gy, today, lastRun, month, h, d);
    var cands, cx := Candidates(f, today, lastRun, month), Candidates(gx, today, lastRun, month);
    NotBothAdded(t, org, cx, h, c, d);
    SameRowsSameMembers(t, org, cands, cx, h, d);
    SameRowsSameMembers(t, org, cands, Candidates(gy, today, lastRun, month), h, d);
    g := if ReadingsAgree(t, org, f, gx, today, lastRun, month, h) then gy else gx;
  }

  lemma SameRowsSameMembers(t: Tables, org: nat, a: seq<Candidate>, b: seq<Candidate>, h: Hash, c: Candidate)
    ensures SameRows(t, org, a, b, h) ==> (c in Added(t, org, a, h) <==> c in Added(t, org, b, h))
  {
    if SameRows(t, org, a, b, h) {
      SameMultiset(Added(t, org, a, h), Added(t, org, b, h));
    }
  }

  /** A run stores the same rows whatever the order its facts are read in, if and only if the organisation
      already has an insight of vendor spikes without ids, or all vendors that spike without ids have one
      severity. */
  lemma RowsForgetReadingIff(
      t: Tables, org: nat, f: Facts, today: int, lastRun: Option<int>, month: int -> int, h: Hash)
    requires StoreOk(t, h) && Injective(h) && PrimaryKeys(f) && OrderProof(f)
    ensures (forall g :: SameFacts(f, g) ==> ReadingsAgree(t, org, f, g, today, lastRun, month, h))
       <==> IdlessKey(h) in Keys(t.insights, org) || OneSeverity(VendorHistories(f.txns, today, month))
  {
    if IdlessKey(h) in Keys(t.insights, org) || OneSeverity(VendorHistories(f.txns, today, month)) {
      CandidatesAgree(t, org, f, today, lastRun, month, h);
      forall g | SameFacts(f, g) ensures ReadingsAgree(t, org, f, g, today, lastRun, month, h) {
        RunsStoreTheSameRows(t, org, f, g, today, lastRun, month, h);
      }
    } else {
      var g := SomeReadingDiffers(t, org, f, today, lastRun, month, h);
    }
  }

  // ----- Two vendors that stopped spending last month -----

  /** Months of thirty days stand for a calendar. */
  function Month30(d: int): int { d - d % 30 }

  function Payment(id: string, date: int, amount: real, v: string): Txn { Txn(id, date, -amount, v, "") }

  /** 100 in each of three months and `last` in the fourth. */
  function FourMonths(v: string, ids: string, last: real): seq<Txn>
    requires |ids| == 4
  {
    [Payment([ids[0]], 35, 100.0, v), Payment([ids[1]], 65, 100.0, v),
     Payment([ids[2]], 95, 100.0, v), Payment([ids[3]], 125, last, v)]
  }

  function TwoVendors(): seq<Txn> { FourMonths("A", "abcd", 200.0) + FourMonths("B", "efgh", 400.0) }

  function TwoVendorFacts(): Facts { Facts([], [], None, TwoVendors(), None, None) }

  lemma NameStays(v: string)
    requires |v| == 1 && !IsSpace(v[0])
    ensures Trim(v) == v
  {
  }

  lemma {:induction false} SumOfNone<T>(f: T -> real, s: seq<T>)
    requires forall x :: x in s ==> f(x) == 0.0
    ensures Sum(f, s) == 0.0
  {
    if s != [] {
      SumOfNone(f, s[..|s| - 1]);
      assert s[|s| - 1] in s;
    }
  }

  /** Other vendors' rows do not count. */
  lemma OthersDoNotCount(a: seq<Txn>, b: seq<Txn>, v: string, latest: int, month: int -> int)
    requires (forall t :: t in a ==> Vendor(t) == v) && forall t :: t in b ==> Vendor(t) != v
    ensures HistoryOf(a + b, v, latest, month) == HistoryOf(a, v, latest, month) == HistoryOf(b + a, v, latest, month)
  {
    var p := (t: Txn) => Vendor(t) == v;
    var q := (t: Txn) => Vendor(t) == v && month(t.date) == latest;
    FilterNone(p, b);
    FilterNone(q, b);
    FilterConcat(p, a, b);
    FilterConcat(p, b, a);
    FilterConcat(q, a, b);
    FilterConcat(q, b, a);
    assert Filter(p, a) + [] == Filter(p, a) == [] + Filter(p, a);
    assert Filter(q, a) + [] == Filter(q, a) == [] + Filter(q, a);
    forall m ensures Spend(a + b, v, m, month) == Spend(a, v, m, month) == Spend(b + a, v, m, month) {
      var f := (t: Txn) => if Vendor(t) == v && month(t.date) == m then -t.amount else 0.0;
      SumOfNone(f, b);
      SumConcat(f, a, b);
      SumConcat(f, b, a);
    }
  }

  function FourTotals(last: real): seq<(int, real)> { [(30, 100.0), (60, 100.0), (90, 100.0), (120, last)] }

  lemma FourMonthsVendor(v: string, ids: string, last: real)
    requires |ids| == 4 && |v| == 1 && !IsSpace(v[0]) && last > 0.0
    ensures InFourMonths(FourMonths(v, ids, last), v, last)
  {
    NameStays(v);
  }

  /** Rows of one vendor, one in each of four months and none in the fifth. */
  ghost predicate InFourMonths(rows: seq<Txn>, v: string, last: real) {
    && |rows| == 4 && (forall t :: t in rows ==> Vendor(t) == v && 0 <= t.date < 150 && t.amount < 0.0)
    && rows[0].date == 35 && rows[1].date == 65 && rows[2].date == 95 && rows[3].date == 125
    && rows[0].amount == rows[1].amount == rows[2].amount == -100.0 && rows[3].amount == -last
  }

  lemma FourMonthsHistory(rows: seq<Txn>, v: string, last: real)
    requires InFourMonths(rows, v, last)
    ensures HistoryOf(rows, v, 150, Month30) == VendorHistory(v, FourTotals(last), [])
  {
    var months := Months(rows, v, Month30);
    FourMonthsAre(rows, v, last);
    AscendingKeys(months);
    FourSum(rows, v, 30);
    FourSum(rows, v, 60);
    FourSum(rows, v, 90);
    FourSum(rows, v, 120);
    var totals := Map(m => (m, Spend(rows, v, m, Month30)), months);
    assert totals == FourTotals(last);
  }

  lemma FourMonthsAre(rows: seq<Txn>, v: string, last: real)
    requires InFourMonths(rows, v, last)
    ensures var months := Months(rows, v, Month30);
      |months| == 4 && months[0] == 30 && months[1] == 60 && months[2] == 90 && months[3] == 120
    ensures Ids(rows, v, 150, Month30) == []
  {
    MonthsOfOwnRows(rows, v, Month30);
    forall t | t in rows ensures Month30(t.date) != 150 {}
    NoIdsIn(rows, v, 150, Month30);
  }

  lemma MonthsOfOwnRows(rows: seq<Txn>, v: string, month: int -> int)
    requires forall t :: t in rows ==> Vendor(t) == v
    ensures var months := Months(rows, v, month);
      |months| == |rows| && forall i :: 0 <= i < |rows| ==> months[i] == month(rows[i].date)
  {
    FilterAll((t: Txn) => Vendor(t) == v, rows);
  }

  lemma NoIdsIn(rows: seq<Txn>, v: string, m: int, month: int -> int)
    requires forall t :: t in rows ==> month(t.date) != m
    ensures Ids(rows, v, m, month) == []
  {
    FilterNone((t: Txn) => Vendor(t) == v && month(t.date) == m, rows);
  }

  lemma AscendingKeys(s: seq<int>)
    requires forall i, j :: 0 <= i < j < |s| ==> s[i] < s[j]
    ensures SortedKeys(s) == s
  {
    var less := (x: int, y: int) => x < y;
    SortedKeysIs(s);
    forall x ensures x in SortedKeys(s) <==> x in s {}
    AscendingUnique(less, SortedKeys(s), s);
  }

  function In30(t: Txn, m: int): real { if Month30(t.date) == m then -t.amount else 0.0 }

  lemma FourSum(rows: seq<Txn>, v: string, m: int)
    requires |rows| == 4 && forall t :: t in rows ==> Vendor(t) == v
    ensures Spend(rows, v, m, Month30) == In30(rows[0], m) + In30(rows[1], m) + In30(rows[2], m) + In30(rows[3], m)
  {
    assert rows[0] in rows && rows[1] in rows && rows[2] in rows && rows[3] in rows;
    VendorSnoc(rows, 0, v, m, Month30);
    VendorSnoc(rows, 1, v, m, Month30);
    VendorSnoc(rows, 2, v, m, Month30);
    VendorSnoc(rows, 3, v, m, Month30);
    assert rows[..0] == [] && rows[..4] == rows;
  }

  lemma FourTotalsSpike(v: string, last: real)
    requires last >= 150.0
    ensures var x := VendorHistory(v, FourTotals(last), []);
      Idless(x) && SpikeCandidate(x).severity == if last >= 300.0 then Critical else Warn
  {
    var x := VendorHistory(v, FourTotals(last), []);
    var f := (m: (int, real)) => m.1;
    assert x.monthlyTotals[..3] == [(30, 100.0), (60, 100.0), (90, 100.0)];
    SumOfThree(f, (30, 100.0), (60, 100.0), (90, 100.0));
    assert Baseline(x) == 100.0;
  }

  lemma SumOfThree<T>(f: T -> real, a: T, b: T, c: T)
    ensures Sum(f, [a, b, c]) == f(a) + f(b) + f(c)
  {
    SumConcat(f, [a, b], [c]);
    SumConcat(f, [a], [b]);
    assert [a] + [b] == [a, b] && [a, b] + [c] == [a, b, c];
    SumOfOne(f, a);
    SumOfOne(f, b);
    SumOfOne(f, c);
  }

  lemma SumOfOne<T>(f: T -> real, x: T)
    ensures Sum(f, [x]) == f(x)
  {
    assert [x][..0] == [];
  }

  lemma HistoryIsThere(txns: seq<Txn>, today: int, month: int -> int, v: string)
    requires v in Map(Vendor, Spending(txns, today))
    ensures HistoryOf(Spending(txns, today), v, month(today), month) in VendorHistories(txns, today, month)
  {
    var rows := Spending(txns, today);
    DistinctIs(Map(Vendor, rows));
    MapMembers(v => HistoryOf(rows, v, month(today), month), Distinct(Map(Vendor, rows)));
  }

  /** One vendor's four months among those of another. */
  lemma FourMonthsAmongOthers(
      txns: seq<Txn>, a: seq<Txn>, b: seq<Txn>, v: string, w: string, last: real, other: real)
    requires InFourMonths(a, v, last) && InFourMonths(b, w, other) && v != w && v != "" && w != ""
    requires txns == a + b || txns == b + a
    ensures VendorHistory(v, FourTotals(last), []) in VendorHistories(txns, 155, Month30)
  {
    FilterAll((t: Txn) => t.date >= 155 - 400 && t.amount < 0.0 && Vendor(t) != "", txns);
    OthersDoNotCount(a, b, v, 150, Month30);
    FourMonthsHistory(a, v, last);
    MapMembers(Vendor, txns);
    assert a[0] in a && a[0] in txns;
    HistoryIsThere(txns, 155, Month30, v);
  }

  lemma TwoVendorHistories()
    ensures var histories := VendorHistories(TwoVendors(), 155, Month30);
      && VendorHistory("A", FourTotals(200.0), []) in histories
      && VendorHistory("B", FourTotals(400.0), []) in histories
  {
    var a, b := FourMonths("A", "abcd", 200.0), FourMonths("B", "efgh", 400.0);
    FourMonthsVendor("A", "abcd", 200.0);
    FourMonthsVendor("B", "efgh", 400.0);
    BothVendors(a, b, TwoVendors());
  }

  lemma BothVendors(a: seq<Txn>, b: seq<Txn>, txns: seq<Txn>)
    requires InFourMonths(a, "A", 200.0) && InFourMonths(b, "B", 400.0) && txns == a + b
    ensures var histories := VendorHistories(txns, 155, Month30);
      && VendorHistory("A", FourTotals(200.0), []) in histories
      && VendorHistory("B", FourTotals(400.0), []) in histories
  {
    FourMonthsAmongOthers(txns, a, b, "A", "B", 200.0, 400.0);
    FourMonthsAmongOthers(txns, b, a, "B", "A", 400.0, 200.0);
  }

  lemma TwoSeveritiesClash(f: Facts, h: Hash, x: VendorHistory, y: VendorHistory) returns (g: Facts)
    requires var histories := VendorHistories(f.txns, 155, Month30); x in histories && y in histories
    requires Idless(x) && Idless(y) && SpikeCandidate(x).severity != SpikeCandidate(y).severity
    ensures SameFacts(f, g) && !ReadingsAgree(EMPTY, 0, f, g, 155, None, Month30, h)
  {
    EmptyIsOk(h);
    g := SomeReadingDiffers(EMPTY, 0, f, 155, None, Month30, h);
  }

  lemma EmptyIsOk(h: Hash)
    ensures StoreOk(EMPTY, h) && Keys(EMPTY.insights, 0) == {}
  {
  }

  /** Two vendors whose spending rose last month, to twice and to four times what it was, and then stopped:
      one spike is stored, and which one depends on the order the transactions are read in. */
  lemma StoredRowCanDependOnReading(h: Hash) returns (g: Facts)
    ensures SameFacts(TwoVendorFacts(), g) && OrderProof(TwoVendorFacts())
    ensures !ReadingsAgree(EMPTY, 0, TwoVendorFacts(), g, 155, None, Month30, h)
  {
    TwoVendorHistories();
    FourTotalsSpike("A", 200.0);
    FourTotalsSpike("B", 400.0);
    g := TwoSeveritiesClash(TwoVendorFacts(), h, VendorHistory("A", FourTotals(200.0), []),
                            VendorHistory("B", FourTotals(400.0), []));
  }
}

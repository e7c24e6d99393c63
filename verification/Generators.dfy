/** The five insight generators. Dates are day numbers; amounts are exact. Titles, bodies and
    links are left out of a candidate. Generators that loop in the source are methods proved
    against a function of the same facts. */
module Generators {
  import opened Base
  import opened Ordering

  datatype Kind = CashDrop | LateInvoice | VendorSpike | CommitmentRenewal | RunwayChange

  datatype Severity = Info | Warn | Critical

  datatype Candidate = Candidate(kind: Kind, severity: Severity, evidence: seq<string>)

  function Abs(x: real): real { if x < 0.0 then -x else x }

  // ----- Cash drop -----

  predicate LargestFirst(a: (string, real), b: (string, real)) {
    Abs(a.1) > Abs(b.1) || (Abs(a.1) == Abs(b.1) && StrLess(a.0, b.0))
  }

  function EvidenceFromTransactions(drops: seq<(string, real)>): seq<string> {
    Map((t: (string, real)) => t.0, Take(10, Sort(LargestFirst, drops)))
  }

  function DetectCashDrop(history: seq<(int, real)>, drops: seq<(string, real)>): seq<Candidate> {
    if |history| < 2 then []
    else
      var prev, curr := history[|history| - 2].1, history[|history| - 1].1;
      if prev <= 0.0 then
        if curr < prev then [Candidate(CashDrop, Critical, EvidenceFromTransactions(drops))] else []
      else
        var delta := curr - prev;
        if delta >= 0.0 then []
        else
          var ratio := (-delta) / prev;
          if ratio < 0.25 then []
          else [Candidate(CashDrop, if ratio >= 0.5 then Critical else Warn, EvidenceFromTransactions(drops))]
  }

  // ----- Late invoices -----

  datatype InvoiceFact = InvoiceFact(id: string, due: int, amount: real, status: string)

  function LateSeverity(amount: real): Severity {
    if amount >= 50000.0 then Critical else if amount >= 5000.0 then Warn else Info
  }

  predicate CrossedLate(inv: InvoiceFact, today: int, lastRun: int) {
    lastRun < inv.due <= today && inv.status != "paid"
  }

  function LateCandidate(inv: InvoiceFact): Candidate {
    Candidate(LateInvoice, LateSeverity(inv.amount), [inv.id])
  }

  function WindowStart(today: int, lastRun: Option<int>): int {
    if lastRun.Some? then lastRun.value else today - 1
  }

  function NewlyLate(today: int, invoices: seq<InvoiceFact>, lastRun: Option<int>): seq<Candidate> {
    Map(LateCandidate, Filter((inv: InvoiceFact) => CrossedLate(inv, today, WindowStart(today, lastRun)), invoices))
  }

  method DetectNewlyLate(today: int, invoices: seq<InvoiceFact>, lastRun: Option<int>) returns (out: seq<Candidate>)
    ensures out == NewlyLate(today, invoices, lastRun)
  {
    var last := WindowStart(today, lastRun);
    ghost var p := (inv: InvoiceFact) => CrossedLate(inv, today, last);
    out := [];
    if last > today {
      NothingCrosses(today, invoices, last);
      return;
    }
    for i := 0 to |invoices|
      invariant out == Map(LateCandidate, Filter(p, invoices[..i]))
    {
      var inv := invoices[i];
      MapFilterSnoc(LateCandidate, p, invoices, i);
      if inv.due <= last || inv.due > today { continue; }
      if inv.status == "paid" { continue; }
      out := out + [Candidate(LateInvoice, LateSeverity(inv.amount), [inv.id])];
    }
    assert invoices[..|invoices|] == invoices;
  }

  lemma {:induction false} NothingCrosses(today: int, invoices: seq<InvoiceFact>, last: int)
    requires last > today
    ensures Filter((inv: InvoiceFact) => CrossedLate(inv, today, last), invoices) == []
  {
    if invoices != [] {
      NothingCrosses(today, invoices[1..], last);
    }
  }

  // ----- Commitment renewals -----

  datatype CommitmentFact = CommitmentFact(id: string, typicalAmount: real, nextDue: Option<int>, enabled: bool)

  predicate RenewsSoon(c: CommitmentFact, today: int) {
    c.enabled && c.nextDue.Some? && today <= c.nextDue.value <= today + 30 && c.typicalAmount >= 500.0
  }

  function RenewalCandidate(c: CommitmentFact): Candidate {
    Candidate(CommitmentRenewal, if c.typicalAmount >= 5000.0 then Critical else Warn, [c.id])
  }

  predicate ById(a: Candidate, b: Candidate) {
    a.evidence != [] && b.evidence != [] && StrLess(a.evidence[0], b.evidence[0])
  }

  function Renewals(today: int, commitments: seq<CommitmentFact>): seq<Candidate> {
    Sort(ById, Map(RenewalCandidate, Filter((c: CommitmentFact) => RenewsSoon(c, today), commitments)))
  }

  method DetectRenewalsComing(today: int, commitments: seq<CommitmentFact>) returns (candidates: seq<Candidate>)
    ensures candidates == Renewals(today, commitments)
  {
    var windowEnd := today + 30;
    ghost var p := (c: CommitmentFact) => RenewsSoon(c, today);
    candidates := [];
    for i := 0 to |commitments|
      invariant candidates == Map(RenewalCandidate, Filter(p, commitments[..i]))
    {
      var c := commitments[i];
      MapFilterSnoc(RenewalCandidate, p, commitments, i);
      if !c.enabled { continue; }
      if c.nextDue.None? { continue; }
      if c.nextDue.value < today || c.nextDue.value > windowEnd { continue; }
      if c.typicalAmount < 500.0 { continue; }
      var severity := if c.typicalAmount >= 5000.0 then Critical else Warn;
      candidates := candidates + [Candidate(CommitmentRenewal, severity, [c.id])];
    }
    assert commitments[..|commitments|] == commitments;
    candidates := Sort(ById, candidates);
  }

  // ----- Vendor spikes -----

  datatype VendorHistory = VendorHistory(merchant: string, monthlyTotals: seq<(int, real)>, latestIds: seq<string>)

  function SpikeSeverity(ratio: real): Severity {
    if ratio >= 2.0 then Critical else if ratio >= 0.5 then Warn else Info
  }

  /** The mean of up to twelve months before the latest. */
  function Baseline(v: VendorHistory): real
    requires |v.monthlyTotals| >= 2
  {
    var before := v.monthlyTotals[..|v.monthlyTotals| - 1];
    var trailing := if |before| > 12 then before[|before| - 12..] else before;
    Sum((m: (int, real)) => m.1, trailing) / (|trailing| as real)
  }

  predicate Spikes(v: VendorHistory) {
    && |v.monthlyTotals| >= 4
    && Baseline(v) >= 100.0
    && (v.monthlyTotals[|v.monthlyTotals| - 1].1 - Baseline(v)) / Baseline(v) >= 0.5
  }

  function SpikeCandidate(v: VendorHistory): Candidate {
    if !Spikes(v) then Candidate(VendorSpike, Info, [])
    else
      var ratio := (v.monthlyTotals[|v.monthlyTotals| - 1].1 - Baseline(v)) / Baseline(v);
      Candidate(VendorSpike, SpikeSeverity(ratio), Sort(StrLess, v.latestIds))
  }

  function VendorSpikes(histories: seq<VendorHistory>): seq<Candidate> {
    Map(SpikeCandidate, Filter((v: VendorHistory) => Spikes(v), histories))
  }

  method DetectVendorSpendSpike(histories: seq<VendorHistory>) returns (out: seq<Candidate>)
    ensures out == VendorSpikes(histories)
  {
    ghost var p := (v: VendorHistory) => Spikes(v);
    out := [];
    for i := 0 to |histories|
      invariant out == Map(SpikeCandidate, Filter(p, histories[..i]))
    {
      var v := histories[i];
      MapFilterSnoc(SpikeCandidate, p, histories, i);
      if |v.monthlyTotals| < 4 { continue; }
      var latest := v.monthlyTotals[|v.monthlyTotals| - 1].1;
      var baseline := Baseline(v);
      if baseline < 100.0 { continue; }
      var ratio := (latest - baseline) / baseline;
      if ratio < 0.5 { continue; }
      out := out + [Candidate(VendorSpike, SpikeSeverity(ratio), Sort(StrLess, v.latestIds))];
    }
    assert histories[..|histories|] == histories;
  }

  // ----- Runway change -----

  datatype AttributionRow = AttributionRow(week: int, delta: real, ids: seq<string>)

  datatype Snapshot = Snapshot(weeks: Option<real>, attribution: seq<AttributionRow>)

  predicate LargerDelta(a: AttributionRow, b: AttributionRow) { Abs(a.delta) > Abs(b.delta) }

  function TopRows(attribution: seq<AttributionRow>): seq<AttributionRow> {
    Take(3, Sort(LargerDelta, attribution))
  }

  function AllIds(rows: seq<AttributionRow>): seq<string> {
    if rows == [] then [] else AllIds(rows[..|rows| - 1]) + rows[|rows| - 1].ids
  }

  function RunwayEvidence(attribution: seq<AttributionRow>): seq<string> {
    Sort(StrLess, Distinct(AllIds(TopRows(attribution))))
  }

  function RunwaySeverity(delta: real): Severity {
    if delta < 0.0 && Abs(delta) >= 8.0 then Critical else if delta < 0.0 then Warn else Info
  }

  function RunwayChanges(prev: Option<Snapshot>, latest: Snapshot): seq<Candidate> {
    if prev.None? || prev.value.weeks.None? || latest.weeks.None? then []
    else
      var delta := latest.weeks.value - prev.value.weeks.value;
      if Abs(delta) < 4.0 then []
      else [Candidate(RunwayChange, RunwaySeverity(delta), RunwayEvidence(latest.attribution))]
  }

  method DetectRunwayChange(prev: Option<Snapshot>, latest: Snapshot) returns (out: seq<Candidate>)
    ensures out == RunwayChanges(prev, latest)
  {
    if prev.None? { return []; }
    if prev.value.weeks.None? || latest.weeks.None? { return []; }
    var delta := latest.weeks.value - prev.value.weeks.value;
    if Abs(delta) < 4.0 { return []; }
    var evidence := FirstSeen(Take(3, Sort(LargerDelta, latest.attribution)));
    out := [Candidate(RunwayChange, RunwaySeverity(delta), Sort(StrLess, evidence))];
  }

  lemma DistinctSnoc<T>(s: seq<T>, x: T)
    ensures Distinct(s + [x]) == if x in Distinct(s) then Distinct(s) else Distinct(s) + [x]
  {
  }

  lemma AllIdsSnoc(rows: seq<AttributionRow>, i: nat)
    requires i < |rows|
    ensures AllIds(rows[..i + 1]) == AllIds(rows[..i]) + rows[i].ids
  {
    assert rows[..i + 1][..i] == rows[..i];
  }

  /** The inner loop: the ids of one row that have not been seen. */
  method AddUnseen<T(==, !new)>(evidence: seq<T>, seen: set<T>, ids: seq<T>, ghost before: seq<T>)
    returns (evidence': seq<T>, seen': set<T>)
    requires evidence == Distinct(before) && forall id :: id in seen <==> id in evidence
    ensures evidence' == Distinct(before + ids) && forall id :: id in seen' <==> id in evidence'
  {
    evidence', seen' := evidence, seen;
    ghost var done := before;
    for j := 0 to |ids|
      invariant done == before + ids[..j] && evidence' == Distinct(done)
      invariant forall id :: id in seen' <==> id in evidence'
    {
      var eid := ids[j];
      DistinctSnoc(done, eid);
      done := done + [eid];
      if eid !in seen' {
        seen' := seen' + {eid};
        evidence' := evidence' + [eid];
      }
    }
    assert ids[..|ids|] == ids;
  }

  /** The ids of the rows, each where it first occurs. */
  method FirstSeen(rows: seq<AttributionRow>) returns (evidence: seq<string>)
    ensures evidence == Distinct(AllIds(rows))
  {
    evidence := [];
    var seen: set<string> := {};
    for i := 0 to |rows|
      invariant evidence == Distinct(AllIds(rows[..i]))
      invariant forall id :: id in seen <==> id in evidence
    {
      AllIdsSnoc(rows, i);
      evidence, seen := AddUnseen(evidence, seen, rows[i].ids, AllIds(rows[..i]));
    }
    assert rows[..|rows|] == rows;
  }
}

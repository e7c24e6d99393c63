/** The insight orchestrator: one run gathers candidates from all generators and stores those
    whose `(type, evidence hash)` the organisation has never had. `dismiss_insight` is the only
    other writer of the table. The hash is a parameter; it is assumed injective only where a
    lemma says so. */
module Insights {
  import opened Base
  import opened Ordering
  import opened Evidence
  import opened Generators
  import opened Loaders

  type Hash = string -> string

  datatype Insight = Insight(
    id: nat, org: nat, kind: Kind, severity: Severity, evidence: seq<string>, hash: string, dismissed: bool)

  datatype AuditAction = InsightCreated | InsightDismissed | InsightRun

  datatype Audit = Audit(org: nat, action: AuditAction, entity: nat)

  /** `nextId` supplies the generated ids. */
  datatype Tables = Tables(insights: seq<Insight>, audits: seq<Audit>, nextId: nat)

  type Key = (Kind, string)

  function KeyOf(c: Candidate, h: Hash): Key { (c.kind, h(Canonical(c.evidence))) }

  /** `_existing_dedupe_keys`: all keys of the organisation, dismissed or not. */
  function Keys(rows: seq<Insight>, org: nat): set<Key> {
    set r | r in rows && r.org == org :: (r.kind, r.hash)
  }

  function NewRow(t: Tables, org: nat, c: Candidate, h: Hash): Insight {
    Insight(t.nextId, org, c.kind, c.severity, c.evidence, h(Canonical(c.evidence)), false)
  }

  function Insert1(t: Tables, org: nat, c: Candidate, h: Hash): Tables {
    if KeyOf(c, h) in Keys(t.insights, org) then t
    else Tables(t.insights + [NewRow(t, org, c, h)], t.audits + [Audit(org, InsightCreated, t.nextId)], t.nextId + 1)
  }

  function Persist(t: Tables, org: nat, cands: seq<Candidate>, h: Hash): Tables {
    if cands == [] then t
    else Insert1(Persist(t, org, cands[..|cands| - 1], h), org, cands[|cands| - 1], h)
  }

  /** The row with this id, if it is the organisation's. */
  function FindRow(rows: seq<Insight>, org: nat, id: nat): (r: Option<nat>)
    ensures r.Some? ==> r.value < |rows| && rows[r.value].id == id && rows[r.value].org == org
    ensures r.None? ==> forall k :: 0 <= k < |rows| ==> !(rows[k].id == id && rows[k].org == org)
  {
    if rows == [] then None
    else
      var n := |rows| - 1;
      var front := FindRow(rows[..n], org, id);
      if front.Some? then front else if rows[n].id == id && rows[n].org == org then Some(n) else None
  }

  function AfterDismiss(t: Tables, org: nat, id: nat): Tables {
    match FindRow(t.insights, org, id)
    case None => t
    case Some(i) =>
      if t.insights[i].dismissed then t
      else t.(insights := t.insights[i := t.insights[i].(dismissed := true)],
              audits := t.audits + [Audit(org, InsightDismissed, id)])
  }

  /** The facts of one organisation, each list in the order its query happened to return. */
  datatype Facts = Facts(
    invoices: seq<InvoiceFact>, commitments: seq<CommitmentFact>, balance: Option<real>, txns: seq<Txn>,
    prev: Option<Snapshot>, latest: Option<Snapshot>)

  /** `_load_invoice_facts`. */
  function LoadedInvoices(invoices: seq<InvoiceFact>): seq<InvoiceFact> {
    Filter((i: InvoiceFact) => i.status == "open" || i.status == "overdue" || i.status == "paid", invoices)
  }

  function CashCandidates(f: Facts, today: int): seq<Candidate> {
    var (history, drops) := CashHistory(f.balance, f.txns, today);
    DetectCashDrop(history, drops)
  }

  function RunwayCandidates(f: Facts): seq<Candidate> {
    if f.latest.Some? then RunwayChanges(f.prev, f.latest.value) else []
  }

  function Candidates(f: Facts, today: int, lastRun: Option<int>, month: int -> int): seq<Candidate> {
    CashCandidates(f, today)
    + NewlyLate(today, LoadedInvoices(f.invoices), lastRun)
    + VendorSpikes(VendorHistories(f.txns, today, month))
    + Renewals(today, f.commitments)
    + RunwayCandidates(f)
  }

  class InsightStore {
    var insights: seq<Insight>
    var audits: seq<Audit>
    var nextId: nat

    constructor ()
      ensures View() == Tables([], [], 0)
    {
      insights, audits, nextId := [], [], 0;
    }

    ghost function View(): Tables
      reads this
    {
      Tables(insights, audits, nextId)
    }

    /** `run_all`. Returns the rows it added. */
    method RunAll(org: nat, f: Facts, today: int, lastRun: Option<int>, month: int -> int, h: Hash)
      returns (created: seq<Insight>)
      modifies this
      ensures View() == Persist(old(View()), org, Candidates(f, today, lastRun, month), h)
      ensures insights == old(insights) + created
    {
      var invoices := LoadedInvoices(f.invoices);
      var vendorHistory := LoadVendorHistory(f.txns, today, month);
      var history, drops := LoadCashHistory(f.balance, f.txns, today);
      var cands := DetectCashDrop(history, drops);
      var late := DetectNewlyLate(today, invoices, lastRun);
      cands := cands + late;
      var spikes := DetectVendorSpendSpike(vendorHistory);
      cands := cands + spikes;
      var renewals := DetectRenewalsComing(today, f.commitments);
      cands := cands + renewals;
      if f.latest.Some? {
        var change := DetectRunwayChange(f.prev, f.latest.value);
        cands := cands + change;
      }
      assert cands == Candidates(f, today, lastRun, month);
      created := DedupeAndPersist(org, cands, h);
    }

    /** The loop of `run_all`. */
    method DedupeAndPersist(org: nat, cands: seq<Candidate>, h: Hash) returns (created: seq<Insight>)
      modifies this
      ensures View() == Persist(old(View()), org, cands, h)
      ensures insights == old(insights) + created
    {
      var existing := Keys(insights, org);
      created := [];
      for i := 0 to |cands|
        invariant View() == Persist(old(View()), org, cands[..i], h)
        invariant existing == Keys(insights, org)
        invariant insights == old(insights) + created
      {
        assert cands[..i + 1][..i] == cands[..i];
        var ehash := h(Canonical(cands[i].evidence));
        var key := (cands[i].kind, ehash);
        if key in existing { continue; }
        existing := existing + {key};
        var row := Insight(nextId, org, cands[i].kind, cands[i].severity, cands[i].evidence, ehash, false);
        KeysSnoc(insights, row, org);
        insights := insights + [row];
        audits := audits + [Audit(org, InsightCreated, row.id)];
        nextId := nextId + 1;
        created := created + [row];
      }
      assert cands[..|cands|] == cands;
    }

    /** `dismiss_insight`. `false` is the 404 for a row that is missing or another organisation's. */
    method Dismiss(org: nat, id: nat) returns (found: bool)
      modifies this
      ensures found <==> FindRow(old(insights), org, id).Some?
      ensures View() == AfterDismiss(old(View()), org, id)
    {
      var row := FindRow(insights, org, id);
      if row.None? { return false; }
      var i := row.value;
      if insights[i].dismissed { return true; }
      insights := insights[i := insights[i].(dismissed := true)];
      audits := audits + [Audit(org, InsightDismissed, id)];
      return true;
    }
  }

  lemma KeysSnoc(rows: seq<Insight>, row: Insight, org: nat)
    ensures Keys(rows + [row], org) == Keys(rows, org) + (if row.org == org then {(row.kind, row.hash)} else {})
  {
  }
}

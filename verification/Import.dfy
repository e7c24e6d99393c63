/** The CSV transaction import: one pass over the rows, writing in chunks, deduplicating by hash. */
module Import {
  import opened Base
  import opened Fx

  /** A row that parses, or one whose date or amount does not. `amount` is its decimal text. */
  datatype Row =
    | Malformed
    | Parsed(date: int, description: string, amount: string, currency: string, merchant: string)

  datatype Txn = Txn(
    date: int, description: string, merchant: string, amount: string, currency: string,
    fxRate: Option<real>, dedupeHash: string)

  datatype Progress = Progress(processed: nat, total: nat, imported: nat, skipped: nat)

  /** What one run works with: its organisation, its base currency and the rates of the day. */
  datatype Job = Job(
    org: string, iso: int -> string, hash: string -> string, base: string, rates: seq<Rate>)

  /** The text that is hashed: its parts follow one another without separators. */
  function DedupeText(job: Job, r: Row): string
    requires r.Parsed?
  {
    job.org + job.iso(r.date) + r.description + r.amount
  }

  function HashOf(job: Job, r: Row): string
    requires r.Parsed?
  {
    job.hash(DedupeText(job, r))
  }

  function Imported(job: Job, r: Row): Txn
    requires r.Parsed?
  {
    Txn(r.date, r.description, r.merchant, r.amount, r.currency,
        AttachSync(job.rates, job.base, r.currency, r.date), HashOf(job, r))
  }

  function Count(s: seq<Txn>, hash: string): nat {
    if s == [] then 0 else Count(s[..|s| - 1], hash) + if s[|s| - 1].dedupeHash == hash then 1 else 0
  }

  lemma {:induction false} CountConcat(a: seq<Txn>, b: seq<Txn>, hash: string)
    ensures Count(a + b, hash) == Count(a, hash) + Count(b, hash)
  {
    if b == [] {
      assert a + b == a;
    } else {
      assert (a + b)[..|a + b| - 1] == a + b[..|b| - 1];
      CountConcat(a, b[..|b| - 1], hash);
    }
  }

  function ChunkSize(total: nat): (c: nat)
    requires total > 0
    ensures c > 0
  {
    if total > 20 then (if total / 20 > 1 then total / 20 else 1) else total
  }

  predicate Boundary(processed: nat, total: nat)
    requires total > 0
  {
    processed % ChunkSize(total) == 0 || processed == total
  }

  /** `stored` is what a query sees, `pending` what was added since the last flush. */
  datatype Work = Work(
    stored: seq<Txn>, pending: seq<Txn>, imported: nat, skipped: nat, rowErrors: nat, fxMissing: nat,
    events: seq<Progress>)

  /** At a chunk's end the progress row is added and everything pending is flushed with it. */
  function Emit(w: Work, processed: nat, total: nat): Work
    requires total > 0
  {
    if Boundary(processed, total)
    then w.(stored := w.stored + w.pending, pending := [],
            events := w.events + [Progress(processed, total, w.imported, w.skipped)])
    else w
  }

  function Add(w: Work, job: Job, r: Row): Work
    requires r.Parsed?
  {
    var t := Imported(job, r);
    w.(pending := w.pending + [t], imported := w.imported + 1,
       fxMissing := w.fxMissing + if t.fxRate.None? && r.currency != job.base then 1 else 0)
  }

  /** One stored match is skipped, before the end of the loop body; several matches are an error. */
  function Process(w: Work, job: Job, r: Row, processed: nat, total: nat): Work
    requires total > 0
  {
    match r
    case Malformed => Emit(w.(rowErrors := w.rowErrors + 1), processed, total)
    case Parsed(_, _, _, _, _) =>
      var n := Count(w.stored, HashOf(job, r));
      if n == 1 then w.(skipped := w.skipped + 1)
      else if n == 0 then Emit(Add(w, job, r), processed, total)
      else Emit(w.(rowErrors := w.rowErrors + 1), processed, total)
  }

  /** The run after its first `k` rows. */
  function After(job: Job, table: seq<Txn>, rows: seq<Row>, k: nat): Work
    requires k <= |rows|
  {
    if k == 0 then Work(table, [], 0, 0, 0, 0, [])
    else Process(After(job, table, rows, k - 1), job, rows[k - 1], k, |rows|)
  }

  /** What the commit leaves. */
  function Table(job: Job, table: seq<Txn>, rows: seq<Row>): seq<Txn> {
    var w := After(job, table, rows, |rows|);
    w.stored + w.pending
  }

  datatype Result = Result(imported: nat, skipped: nat, errors: nat, fxMissing: nat)

  function Report(w: Work): Result {
    Result(w.imported, w.skipped, w.rowErrors + if w.fxMissing > 0 then 1 else 0, w.fxMissing)
  }

  /** The worker's session: rows it has written and rows it has only added. */
  class ImportSession {
    var stored: seq<Txn>
    var pending: seq<Txn>
    var events: seq<Progress>

    constructor (table: seq<Txn>)
      ensures stored == table && pending == [] && events == []
    {
      stored, pending, events := table, [], [];
    }

    /** Adding the progress row flushes the session, the rows added before it included. */
    method PublishProgress(p: Progress)
      modifies this
      ensures stored == old(stored) + old(pending) && pending == [] && events == old(events) + [p]
    {
      events := events + [p];
      stored := stored + pending;
      pending := [];
    }

    method CountStored(hash: string) returns (n: nat)
      ensures n == Count(stored, hash)
    {
      n := 0;
      for i := 0 to |stored|
        invariant n == Count(stored[..i], hash)
      {
        assert stored[..i + 1][..i] == stored[..i];
        if stored[i].dedupeHash == hash {
          n := n + 1;
        }
      }
      assert stored[..|stored|] == stored;
    }

    method ImportTransactions(job: Job, rows: seq<Row>) returns (result: Result)
      requires pending == [] && events == []
      modifies this
      ensures pending == [] && stored == Table(job, old(stored), rows)
      ensures events == After(job, old(stored), rows, |rows|).events
      ensures result == Report(After(job, old(stored), rows, |rows|))
    {
      if rows == [] {
        assert stored + [] == stored;
        return Result(0, 0, 0, 0);
      }
      ghost var before := stored;
      var imported, skipped, rowErrors, fxMissing := 0, 0, 0, 0;
      var total := |rows|;
      var chunk := ChunkSize(total);
      for i := 0 to total
        invariant Work(stored, pending, imported, skipped, rowErrors, fxMissing, events) == After(job, before, rows, i)
      {
        var r := rows[i];
        if r.Malformed? {
          rowErrors := rowErrors + 1;
        } else {
          var n := CountStored(HashOf(job, r));
          if n == 1 {
            skipped := skipped + 1;
            continue;
          }
          if n > 1 {
            rowErrors := rowErrors + 1;
          } else {
            var t := Imported(job, r);
            if t.fxRate.None? && r.currency != job.base {
              fxMissing := fxMissing + 1;
            }
            pending := pending + [t];
            imported := imported + 1;
          }
        }
        if (i + 1) % chunk == 0 || i + 1 == total {
          PublishProgress(Progress(i + 1, total, imported, skipped));
        }
      }
      result := Result(imported, skipped, rowErrors + if fxMissing > 0 then 1 else 0, fxMissing);
      stored := stored + pending;
      pending := [];
    }
  }
}

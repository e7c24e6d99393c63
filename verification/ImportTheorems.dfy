/** What the CSV import promises: importing again, duplicates inside one batch, and its progress reports. */
module ImportTheorems {
  import opened Base
  import opened Import

  /** Every row of a run is imported, skipped or reported as an error. */
  lemma {:induction false} EveryRowIsAccountedFor(job: Job, table: seq<Txn>, rows: seq<Row>, k: nat)
    requires k <= |rows|
    ensures var w := After(job, table, rows, k);
      && w.imported + w.skipped + w.rowErrors == k
      && |w.stored| + |w.pending| == |table| + w.imported
      && table <= w.stored
  {
    if k > 0 {
      EveryRowIsAccountedFor(job, table, rows, k - 1);
    }
  }

  // ----- Importing again -----

  /** A history of imports: each run has its own rates and base currency. */
  function History(table: seq<Txn>, runs: seq<(Job, seq<Row>)>): seq<Txn>
    decreases |runs|
  {
    if runs == [] then table else History(Table(runs[0].0, table, runs[0].1), runs[1..])
  }

  ghost predicate SameHashing(a: Job, b: Job) { a.org == b.org && a.iso == b.iso && a.hash == b.hash }

  ghost predicate Covered(job: Job, table: seq<Txn>, rows: seq<Row>) {
    forall r :: r in rows && r.Parsed? ==> Count(table, HashOf(job, r)) > 0
  }

  /** A row the table already covers is never imported. */
  lemma {:induction false} CoveredImportsNothing(job: Job, table: seq<Txn>, rows: seq<Row>, k: nat)
    requires k <= |rows| && Covered(job, table, rows)
    ensures var w := After(job, table, rows, k); w.imported == 0 && w.stored == table && w.pending == []
  {
    if k > 0 {
      CoveredImportsNothing(job, table, rows, k - 1);
      assert rows[k - 1] in rows;
    }
  }

  lemma {:induction false} RunOnlyAdds(job: Job, table: seq<Txn>, rows: seq<Row>, k: nat, hash: string)
    requires k <= |rows|
    ensures var w := After(job, table, rows, k); Count(w.stored + w.pending, hash) >= Count(table, hash)
  {
    EveryRowIsAccountedFor(job, table, rows, k);
    var w := After(job, table, rows, k);
    var all := w.stored + w.pending;
    assert all == table + all[|table|..];
    CountConcat(table, all[|table|..], hash);
  }

  /** After a run, every row it parsed has its hash in the table. */
  lemma {:induction false} RunCovers(job: Job, table: seq<Txn>, rows: seq<Row>, k: nat, i: nat)
    requires i < k <= |rows| && rows[i].Parsed?
    ensures var w := After(job, table, rows, k); Count(w.stored + w.pending, HashOf(job, rows[i])) > 0
  {
    var h := HashOf(job, rows[i]);
    var w, w' := After(job, table, rows, k - 1), After(job, table, rows, k);
    CountConcat(w.stored, w.pending, h);
    if i < k - 1 {
      RunCovers(job, table, rows, k - 1, i);
    }
    StepOnlyAdds(w, job, rows[k - 1], k, |rows|, h);
  }

  /** One row adds at most its own hash, and adds it unless a query finds it. */
  lemma StepOnlyAdds(w: Work, job: Job, r: Row, processed: nat, total: nat, hash: string)
    requires total > 0
    ensures var w' := Process(w, job, r, processed, total);
      Count(w'.stored + w'.pending, hash) == Count(w.stored + w.pending, hash)
        + if r.Parsed? && HashOf(job, r) == hash && Count(w.stored, hash) == 0 then 1 else 0
  {
    var all := w.stored + w.pending;
    assert all + [] == all;
    if r.Parsed? && Count(w.stored, HashOf(job, r)) == 0 {
      var t := Imported(job, r);
      CountConcat(all, [t], hash);
      assert w.stored + (w.pending + [t]) == all + [t] && all + [t] + [] == all + [t];
      assert [t][..0] == [];
    }
  }

  lemma {:induction false} HistoryOnlyAdds(table: seq<Txn>, runs: seq<(Job, seq<Row>)>, hash: string)
    ensures Count(History(table, runs), hash) >= Count(table, hash)
    decreases |runs|
  {
    if runs != [] {
      RunOnlyAdds(runs[0].0, table, runs[0].1, |runs[0].1|, hash);
      HistoryOnlyAdds(Table(runs[0].0, table, runs[0].1), runs[1..], hash);
    }
  }

  /** After a batch has been imported, with whatever duplicates it held, and after any further imports,
      importing the same rows again, all or some of them in any order, inserts nothing. */
  lemma ReimportInsertsNothing(
      job: Job, table: seq<Txn>, rows: seq<Row>, later: seq<(Job, seq<Row>)>, again: Job, repeated: seq<Row>)
    requires SameHashing(job, again) && forall r :: r in repeated ==> r in rows
    ensures var t := History(Table(job, table, rows), later);
      Table(again, t, repeated) == t && After(again, t, repeated, |repeated|).imported == 0
  {
    var t := History(Table(job, table, rows), later);
    forall r | r in repeated && r.Parsed? ensures Count(t, HashOf(again, r)) > 0 {
      var i :| 0 <= i < |rows| && rows[i] == r;
      RunCovers(job, table, rows, |rows|, i);
      HistoryOnlyAdds(Table(job, table, rows), later, HashOf(job, r));
    }
    CoveredImportsNothing(again, t, repeated, |repeated|);
    assert t + [] == t;
  }

  predicate IsOnce(job: Job, table: seq<Txn>, r: Row) { r.Parsed? && Count(table, HashOf(job, r)) == 1 }

  function CountOnce(job: Job, table: seq<Txn>, rows: seq<Row>): nat {
    if rows == [] then 0
    else CountOnce(job, table, rows[..|rows| - 1]) + if IsOnce(job, table, rows[|rows| - 1]) then 1 else 0
  }

  /** On importing again, rows stored once are skipped; rows stored several times are reported as errors. */
  lemma {:induction false} ReimportSkipsRowsStoredOnce(job: Job, table: seq<Txn>, rows: seq<Row>, k: nat)
    requires k <= |rows| && Covered(job, table, rows)
    ensures var w := After(job, table, rows, k);
      w.skipped == CountOnce(job, table, rows[..k]) && w.rowErrors == k - w.skipped
  {
    CoveredImportsNothing(job, table, rows, k);
    EveryRowIsAccountedFor(job, table, rows, k);
    if k > 0 {
      ReimportSkipsRowsStoredOnce(job, table, rows, k - 1);
      CoveredImportsNothing(job, table, rows, k - 1);
      assert rows[..k][..k - 1] == rows[..k - 1];
      assert rows[k - 1] in rows;
    }
  }

  // ----- Duplicates inside one batch -----

  ghost predicate Unique(table: seq<Txn>) {
    forall hash :: Count(table, hash) <= 1
  }

  predicate SameHash(job: Job, a: Row, b: Row) {
    a.Parsed? && b.Parsed? && HashOf(job, a) == HashOf(job, b)
  }

  /** The first row of a hash the table does not hold. */
  predicate Fresh(job: Job, table: seq<Txn>, rows: seq<Row>, i: nat)
    requires i < |rows|
  {
    && rows[i].Parsed? && Count(table, HashOf(job, rows[i])) == 0
    && forall j :: 0 <= j < i ==> !SameHash(job, rows[j], rows[i])
  }

  /** A chunk ends between rows `i` and `j`, at a row that is not skipped as a duplicate. */
  predicate FlushedBetween(job: Job, table: seq<Txn>, rows: seq<Row>, i: nat, j: nat)
    requires i <= j <= |rows|
  {
    exists p :: i < p <= j && Boundary(p, |rows|) && (rows[p - 1].Malformed? || Fresh(job, table, rows, p - 1))
  }

  /** Among the first `k` rows, each repetition of a fresh row comes after a flush. */
  predicate Separated(job: Job, table: seq<Txn>, rows: seq<Row>, k: nat)
    requires k <= |rows|
  {
    forall i, j :: 0 <= i < j < k && Fresh(job, table, rows, i) && SameHash(job, rows[i], rows[j])
      ==> FlushedBetween(job, table, rows, i, j)
  }

  function Total(w: Work, h: string): nat { Count(w.stored, h) + Count(w.pending, h) }

  predicate Adds(w: Work, job: Job, r: Row) { r.Parsed? && Count(w.stored, HashOf(job, r)) == 0 }

  predicate Skips(w: Work, job: Job, r: Row) { r.Parsed? && Count(w.stored, HashOf(job, r)) == 1 }

  /** What one row does to the counts of a hash. */
  lemma StepCounts(w: Work, job: Job, r: Row, processed: nat, total: nat, h: string)
    requires total > 0
    ensures var w' := Process(w, job, r, processed, total);
      && Total(w', h) == Total(w, h) + (if Adds(w, job, r) && HashOf(job, r) == h then 1 else 0)
      && Count(w'.stored, h)
         == if Boundary(processed, total) && !Skips(w, job, r) then Total(w', h) else Count(w.stored, h)
  {
    var w' := Process(w, job, r, processed, total);
    StepOnlyAdds(w, job, r, processed, total, h);
    CountConcat(w.stored, w.pending, h);
    CountConcat(w'.stored, w'.pending, h);
    assert Count([], h) == 0;
  }

  /** The first `k` rows so far: what is stored and what is pending follows from the rows alone. */
  ghost predicate Predicted(job: Job, table: seq<Txn>, rows: seq<Row>, k: nat, w: Work)
    requires k <= |rows|
  {
    && (forall h :: Total(w, h) <= 1)
    && (forall h :: Total(w, h) == 1 <==> Count(table, h) == 1 || SeenFresh(job, table, rows, k, h))
    && (forall h :: Count(table, h) == 1 ==> Count(w.stored, h) == 1)
    && (forall i :: 0 <= i < k && Fresh(job, table, rows, i)
          ==> (Count(w.stored, HashOf(job, rows[i])) == 1 <==> FlushedBetween(job, table, rows, i, k)))
  }

  ghost predicate SeenFresh(job: Job, table: seq<Txn>, rows: seq<Row>, k: nat, h: string)
    requires k <= |rows|
  {
    exists i :: 0 <= i < k && Fresh(job, table, rows, i) && HashOf(job, rows[i]) == h
  }

  lemma {:induction false} FirstIsFresh(job: Job, table: seq<Txn>, rows: seq<Row>, j: nat) returns (i: nat)
    requires j < |rows| && rows[j].Parsed? && Count(table, HashOf(job, rows[j])) == 0
    ensures i <= j && Fresh(job, table, rows, i) && SameHash(job, rows[i], rows[j])
  {
    if e :| 0 <= e < j && SameHash(job, rows[e], rows[j]) {
      i := FirstIsFresh(job, table, rows, e);
    } else {
      i := j;
    }
  }

  /** While repetitions are separated by flushes, a row is added exactly when it is fresh. */
  lemma AddsFresh(job: Job, table: seq<Txn>, rows: seq<Row>, k: nat, w: Work)
    requires k < |rows| && Unique(table) && Predicted(job, table, rows, k, w) && Separated(job, table, rows, k + 1)
    ensures Adds(w, job, rows[k]) <==> Fresh(job, table, rows, k)
    ensures Skips(w, job, rows[k]) <==> rows[k].Parsed? && !Fresh(job, table, rows, k)
  {
    if rows[k].Parsed? {
      var h := HashOf(job, rows[k]);
      assert Total(w, h) <= 1 && Count(table, h) <= 1;
      if Fresh(job, table, rows, k) {
        assert Total(w, h) == 0;
      } else if Count(table, h) == 0 {
        var i := FirstIsFresh(job, table, rows, k);
        assert FlushedBetween(job, table, rows, i, k);
      }
    }
  }

  lemma FlushedStep(job: Job, table: seq<Txn>, rows: seq<Row>, i: nat, k: nat)
    requires i <= k < |rows|
    ensures FlushedBetween(job, table, rows, i, k + 1)
       <==> FlushedBetween(job, table, rows, i, k)
            || (Boundary(k + 1, |rows|) && (rows[k].Malformed? || Fresh(job, table, rows, k)))
  {
  }

  lemma SeenStep(job: Job, table: seq<Txn>, rows: seq<Row>, k: nat, h: string)
    requires k < |rows|
    ensures SeenFresh(job, table, rows, k + 1, h)
       <==> SeenFresh(job, table, rows, k, h) || (Fresh(job, table, rows, k) && HashOf(job, rows[k]) == h)
  {
  }

  lemma PredictedStep(job: Job, table: seq<Txn>, rows: seq<Row>, k: nat, w: Work)
    requires k < |rows| && Unique(table) && Predicted(job, table, rows, k, w) && Separated(job, table, rows, k + 1)
    ensures Predicted(job, table, rows, k + 1, Process(w, job, rows[k], k + 1, |rows|))
  {
    var r, w' := rows[k], Process(w, job, rows[k], k + 1, |rows|);
    AddsFresh(job, table, rows, k, w);
    forall h
      ensures Total(w', h) <= 1
      ensures Total(w', h) == 1 <==> Count(table, h) == 1 || SeenFresh(job, table, rows, k + 1, h)
      ensures Count(table, h) == 1 ==> Count(w'.stored, h) == 1
    {
      StepCounts(w, job, r, k + 1, |rows|, h);
      SeenStep(job, table, rows, k, h);
      assert Total(w, h) <= 1;
    }
    forall i | 0 <= i < k + 1 && Fresh(job, table, rows, i)
      ensures Count(w'.stored, HashOf(job, rows[i])) == 1 <==> FlushedBetween(job, table, rows, i, k + 1)
    {
      var h := HashOf(job, rows[i]);
      StepCounts(w, job, r, k + 1, |rows|, h);
      FlushedStep(job, table, rows, i, k);
      assert SeenFresh(job, table, rows, k + 1, h);
      assert Total(w', h) == 1;
    }
  }

  lemma {:induction false} PredictedAt(job: Job, table: seq<Txn>, rows: seq<Row>, k: nat)
    requires k <= |rows| && Unique(table) && Separated(job, table, rows, k)
    ensures Predicted(job, table, rows, k, After(job, table, rows, k))
  {
    if k == 0 {
      forall h ensures Total(After(job, table, rows, 0), h) == Count(table, h) <= 1 {}
    } else {
      PredictedAt(job, table, rows, k - 1);
      PredictedStep(job, table, rows, k - 1, After(job, table, rows, k - 1));
    }
  }

  lemma {:induction false} TotalGrows(job: Job, table: seq<Txn>, rows: seq<Row>, j: nat, k: nat, h: string)
    requires j <= k <= |rows|
    ensures Total(After(job, table, rows, j), h) <= Total(After(job, table, rows, k), h)
    decreases k
  {
    if j < k {
      TotalGrows(job, table, rows, j, k - 1, h);
      StepCounts(After(job, table, rows, k - 1), job, rows[k - 1], k, |rows|, h);
    }
  }

  lemma UnseparatedPair(job: Job, table: seq<Txn>, rows: seq<Row>, k: nat) returns (i: nat)
    requires k < |rows| && Separated(job, table, rows, k) && !Separated(job, table, rows, k + 1)
    ensures i < k && Fresh(job, table, rows, i) && SameHash(job, rows[i], rows[k])
    ensures !FlushedBetween(job, table, rows, i, k)
  {
    var j: nat;
    i, j :| 0 <= i < j < k + 1 && Fresh(job, table, rows, i) && SameHash(job, rows[i], rows[j])
         && !FlushedBetween(job, table, rows, i, j);
    assert j == k;
  }

  /** The first repetition that no flush separates from its fresh row is stored a second time. */
  lemma UnseparatedIsStoredTwice(job: Job, table: seq<Txn>, rows: seq<Row>, k: nat) returns (h: string)
    requires k < |rows| && Unique(table) && Separated(job, table, rows, k) && !Separated(job, table, rows, k + 1)
    ensures Count(Table(job, table, rows), h) > 1
  {
    var w := After(job, table, rows, k);
    var i := UnseparatedPair(job, table, rows, k);
    PredictedAt(job, table, rows, k);
    h := HashOf(job, rows[i]);
    assert SeenFresh(job, table, rows, k, h);
    assert Total(w, h) == 1 && Count(w.stored, h) == 0;
    StepCounts(w, job, rows[k], k + 1, |rows|, h);
    StoredByTheEnd(job, table, rows, k + 1, h);
  }

  lemma StoredByTheEnd(job: Job, table: seq<Txn>, rows: seq<Row>, k: nat, h: string)
    requires k <= |rows|
    ensures Count(Table(job, table, rows), h) >= Total(After(job, table, rows, k), h)
  {
    TotalGrows(job, table, rows, k, |rows|, h);
    var end := After(job, table, rows, |rows|);
    CountConcat(end.stored, end.pending, h);
  }

  lemma {:induction false} FirstUnseparated(job: Job, table: seq<Txn>, rows: seq<Row>, k: nat) returns (j: nat)
    requires k <= |rows| && !Separated(job, table, rows, k)
    ensures j < k && Separated(job, table, rows, j) && !Separated(job, table, rows, j + 1)
  {
    assert k > 0;
    if Separated(job, table, rows, k - 1) {
      j := k - 1;
    } else {
      j := FirstUnseparated(job, table, rows, k - 1);
    }
  }

  /** An import leaves every hash stored at most once if and only if it was so before and every repetition
      of a new row inside the batch comes after a chunk has been flushed. */
  lemma StoresNothingTwiceIff(job: Job, table: seq<Txn>, rows: seq<Row>)
    ensures Unique(Table(job, table, rows)) <==> Unique(table) && Separated(job, table, rows, |rows|)
  {
    var end := After(job, table, rows, |rows|);
    if Unique(table) {
      if Separated(job, table, rows, |rows|) {
        PredictedAt(job, table, rows, |rows|);
        forall h ensures Count(Table(job, table, rows), h) <= 1 {
          CountConcat(end.stored, end.pending, h);
          assert Total(end, h) <= 1;
        }
      } else {
        var j := FirstUnseparated(job, table, rows, |rows|);
        var h := UnseparatedIsStoredTwice(job, table, rows, j);
      }
    } else {
      var h :| Count(table, h) > 1;
      RunOnlyAdds(job, table, rows, |rows|, h);
    }
  }

  /** No two rows of a batch have the same hash, unless the table holds it. */
  predicate NewRowsDiffer(job: Job, table: seq<Txn>, rows: seq<Row>) {
    forall i, j :: 0 <= i < j < |rows| && SameHash(job, rows[i], rows[j]) ==> Count(table, HashOf(job, rows[i])) > 0
  }

  lemma SmallBatchIsOneChunk(job: Job, table: seq<Txn>, rows: seq<Row>, i: nat, j: nat)
    requires i <= j < |rows| <= 20
    ensures !FlushedBetween(job, table, rows, i, j)
  {
  }

  /** Up to twenty rows are one chunk: there, new rows must simply not repeat. */
  lemma SmallBatchStoresNothingTwiceIff(job: Job, table: seq<Txn>, rows: seq<Row>)
    requires |rows| <= 20 && Unique(table)
    ensures Unique(Table(job, table, rows)) <==> NewRowsDiffer(job, table, rows)
  {
    StoresNothingTwiceIff(job, table, rows);
    if Separated(job, table, rows, |rows|) {
      forall i, j | 0 <= i < j < |rows| && SameHash(job, rows[i], rows[j])
        ensures Count(table, HashOf(job, rows[i])) > 0
      {
        if Count(table, HashOf(job, rows[i])) == 0 {
          var first := FirstIsFresh(job, table, rows, i);
          SmallBatchIsOneChunk(job, table, rows, first, j);
          assert SameHash(job, rows[first], rows[j]);
        }
      }
    }
  }

  // ----- The hash -----

  /** The day numbers that have a date, and what printing them as ISO 8601 gives. */
  predicate IsDay(d: int) { 1 <= d <= 3_652_059 }

  ghost predicate IsoDates(iso: int -> string) {
    && (forall d :: IsDay(d) ==> |iso(d)| == 10)
    && (forall d, e :: IsDay(d) && IsDay(e) && iso(d) == iso(e) ==> d == e)
  }

  /** With a hash that keeps texts apart, two rows share a hash if and only if they have the same date and
      their descriptions followed by their amounts read the same. Currency and merchant are not looked at. */
  lemma SameHashIff(job: Job, a: Row, b: Row)
    requires (forall x, y :: job.hash(x) == job.hash(y) ==> x == y) && IsoDates(job.iso)
    requires a.Parsed? && b.Parsed? && IsDay(a.date) && IsDay(b.date)
    ensures SameHash(job, a, b) <==> a.date == b.date && a.description + a.amount == b.description + b.amount
  {
    var x, y := a.description + a.amount, b.description + b.amount;
    assert DedupeText(job, a) == job.org + job.iso(a.date) + x;
    assert DedupeText(job, b) == job.org + job.iso(b.date) + y;
    var n := |job.org|;
    assert (job.org + job.iso(a.date) + x)[n..n + 10] == job.iso(a.date);
    assert (job.org + job.iso(b.date) + y)[n..n + 10] == job.iso(b.date);
    assert (job.org + job.iso(a.date) + x)[n + 10..] == x;
    assert (job.org + job.iso(b.date) + y)[n + 10..] == y;
  }

  /** So a character may move from the description to the amount. */
  lemma DifferentRowsShareAHash(job: Job, date: int, d: string, c: char, amount: string, currency: string, m: string)
    ensures var a := Parsed(date, d + [c], amount, currency, m);
      var b := Parsed(date, d, [c] + amount, currency, m);
      a != b && SameHash(job, a, b)
  {
    var a := Parsed(date, d + [c], amount, currency, m);
    var b := Parsed(date, d, [c] + amount, currency, m);
    assert |a.description| != |b.description|;
    assert DedupeText(job, a) == DedupeText(job, b);
  }

  lemma OneNewRowIsStored(job: Job, table: seq<Txn>, r: Row)
    requires r.Parsed? && Count(table, HashOf(job, r)) == 0
    ensures Table(job, table, [r]) == table + [Imported(job, r)]
  {
    assert After(job, table, [r], 1) == Process(After(job, table, [r], 0), job, r, 1, 1);
  }

  lemma OneKnownRowIsSkipped(job: Job, table: seq<Txn>, r: Row)
    requires r.Parsed? && Count(table, HashOf(job, r)) == 1
    ensures Table(job, table, [r]) == table
  {
    assert After(job, table, [r], 1) == Process(After(job, table, [r], 0), job, r, 1, 1);
    assert table + [] == table;
  }

  /** Of two new rows in two batches, the second is stored if and only if they do not share a hash. */
  lemma LookAlikeIsSkippedIff(job: Job, table: seq<Txn>, a: Row, b: Row)
    requires a.Parsed? && b.Parsed? && Count(table, HashOf(job, a)) == Count(table, HashOf(job, b)) == 0
    ensures Table(job, Table(job, table, [a]), [b])
         == table + [Imported(job, a)] + if SameHash(job, a, b) then [] else [Imported(job, b)]
  {
    var t := table + [Imported(job, a)];
    OneNewRowIsStored(job, table, a);
    CountConcat(table, [Imported(job, a)], HashOf(job, b));
    assert [Imported(job, a)][..0] == [];
    assert t + [] == t;
    if SameHash(job, a, b) {
      OneKnownRowIsSkipped(job, t, b);
    } else {
      OneNewRowIsStored(job, t, b);
    }
  }

  /** Amounts in different currencies, or paid to different merchants, are taken for one transaction: the
      second of two such rows is never stored. */
  lemma CurrencyIsNotHashed(job: Job, table: seq<Txn>, r: Row, currency: string, merchant: string)
    requires r.Parsed? && Count(table, HashOf(job, r)) == 0
    ensures var other := r.(currency := currency, merchant := merchant);
      Table(job, Table(job, table, [r]), [other]) == Table(job, table, [r]) == table + [Imported(job, r)]
  {
    var other := r.(currency := currency, merchant := merchant);
    assert SameHash(job, r, other);
    OneNewRowIsStored(job, table, r);
    LookAlikeIsSkippedIff(job, table, r, other);
    assert table + [Imported(job, r)] + [] == table + [Imported(job, r)];
  }

  // ----- Progress -----

  lemma StepReports(w: Work, job: Job, r: Row, processed: nat, total: nat)
    requires total > 0
    ensures var w' := Process(w, job, r, processed, total);
      w'.events == w.events + if Boundary(processed, total) && !Skips(w, job, r)
                              then [Progress(processed, total, w'.imported, w'.skipped)] else []
  {
  }

  ghost predicate Advancing(events: seq<Progress>, k: nat, total: nat) {
    && (forall i, j :: 0 <= i < j < |events| ==> events[i].processed < events[j].processed)
    && (forall i :: 0 <= i < |events| ==> 0 < events[i].processed <= k && events[i].total == total)
  }

  lemma AdvancingSnoc(events: seq<Progress>, k: nat, e: Progress)
    requires Advancing(events, k, e.total) && e.processed == k + 1
    ensures Advancing(events + [e], k + 1, e.total)
  {
  }

  /** Progress reports carry strictly increasing counts of rows, never more than were processed. */
  lemma {:induction false} ProgressAdvances(job: Job, table: seq<Txn>, rows: seq<Row>, k: nat)
    requires k <= |rows|
    ensures Advancing(After(job, table, rows, k).events, k, |rows|)
  {
    if k > 0 {
      var w, w' := After(job, table, rows, k - 1), After(job, table, rows, k);
      ProgressAdvances(job, table, rows, k - 1);
      StepReports(w, job, rows[k - 1], k, |rows|);
      if w'.events != w.events {
        AdvancingSnoc(w.events, k - 1, Progress(k, |rows|, w'.imported, w'.skipped));
      }
    }
  }

  /** Each report counts rows that can be seen: it is made with nothing pending, and the rows it says were
      imported are the ones stored by then. */
  lemma {:induction false} ReportsCountStoredRows(job: Job, table: seq<Txn>, rows: seq<Row>, k: nat, i: nat)
    requires k <= |rows| && i < |After(job, table, rows, k).events|
    ensures var e := After(job, table, rows, k).events[i];
      && 0 < e.processed <= k
      && var w := After(job, table, rows, e.processed);
         w.pending == [] && |w.stored| == |table| + e.imported && e.imported == w.imported && e.skipped == w.skipped
  {
    var w, w' := After(job, table, rows, k - 1), After(job, table, rows, k);
    StepReports(w, job, rows[k - 1], k, |rows|);
    if i < |w.events| {
      ReportsCountStoredRows(job, table, rows, k - 1, i);
      assert w'.events[i] == w.events[i];
    } else {
      EveryRowIsAccountedFor(job, table, rows, k);
    }
  }

  /** How many of the first `k` rows have this hash. */
  function Matches(job: Job, rows: seq<Row>, k: nat, h: string): nat
    requires k <= |rows|
  {
    if k == 0 then 0
    else Matches(job, rows, k - 1, h) + if rows[k - 1].Parsed? && HashOf(job, rows[k - 1]) == h then 1 else 0
  }

  /** Row `q` is a duplicate of one stored row: the table holds its hash once, or it does not and some chunk
      ended before `q`, at a row that is itself no such duplicate, when one row had that hash. */
  predicate Skipped(job: Job, table: seq<Txn>, rows: seq<Row>, q: nat)
    requires q < |rows|
    decreases q
  {
    rows[q].Parsed? &&
    var h := HashOf(job, rows[q]);
    || Count(table, h) == 1
    || (Count(table, h) == 0
        && exists p :: 0 < p <= q && Boundary(p, |rows|) && !Skipped(job, table, rows, p - 1)
                       && Matches(job, rows, p, h) == 1)
  }

  /** A chunk ends after `p` rows, and is flushed. */
  predicate FlushesAt(job: Job, table: seq<Txn>, rows: seq<Row>, p: nat)
    requires 0 < p <= |rows|
  {
    Boundary(p, |rows|) && !Skips(After(job, table, rows, p - 1), job, rows[p - 1])
  }

  /** How many rows with this hash come before the first flush that follows one of them. */
  function FirstFlushed(job: Job, table: seq<Txn>, rows: seq<Row>, k: nat, h: string): nat
    requires k <= |rows|
  {
    if k == 0 then 0
    else
      var n := FirstFlushed(job, table, rows, k - 1, h);
      if n > 0 || !FlushesAt(job, table, rows, k) then n else Matches(job, rows, k, h)
  }

  /** Of a hash that the table does not hold, those rows are stored, and no others. */
  lemma {:induction false} FirstFlushedAreStored(job: Job, table: seq<Txn>, rows: seq<Row>, k: nat, h: string)
    requires k <= |rows| && Count(table, h) == 0
    ensures var w, n := After(job, table, rows, k), FirstFlushed(job, table, rows, k, h);
      Count(w.stored, h) == n && Count(w.pending, h) == if n == 0 then Matches(job, rows, k, h) else 0
  {
    if k > 0 {
      FirstFlushedAreStored(job, table, rows, k - 1, h);
      StepCounts(After(job, table, rows, k - 1), job, rows[k - 1], k, |rows|, h);
    }
  }

  lemma {:induction false} FirstFlushedIsOneIff(job: Job, table: seq<Txn>, rows: seq<Row>, k: nat, h: string)
    requires k <= |rows|
    ensures FirstFlushed(job, table, rows, k, h) <= Matches(job, rows, k, h)
    ensures FirstFlushed(job, table, rows, k, h) == 1
       <==> exists p :: 0 < p <= k && FlushesAt(job, table, rows, p) && Matches(job, rows, p, h) == 1
  {
    if k > 0 {
      FirstFlushedIsOneIff(job, table, rows, k - 1, h);
    }
  }

  lemma {:induction false} HeldHashStays(job: Job, table: seq<Txn>, rows: seq<Row>, k: nat, h: string)
    requires k <= |rows| && Count(table, h) > 0
    ensures var w := After(job, table, rows, k); Count(w.stored, h) == Count(table, h) && Count(w.pending, h) == 0
  {
    if k > 0 {
      HeldHashStays(job, table, rows, k - 1, h);
      StepCounts(After(job, table, rows, k - 1), job, rows[k - 1], k, |rows|, h);
    }
  }

  /** What the run skips can be told from the table and the rows. */
  lemma {:induction false} SkippedIff(job: Job, table: seq<Txn>, rows: seq<Row>, q: nat)
    requires q < |rows|
    ensures Skips(After(job, table, rows, q), job, rows[q]) <==> Skipped(job, table, rows, q)
    decreases q
  {
    if rows[q].Parsed? {
      var h := HashOf(job, rows[q]);
      if Count(table, h) > 0 {
        HeldHashStays(job, table, rows, q, h);
      } else {
        FirstFlushedAreStored(job, table, rows, q, h);
        FirstFlushedIsOneIff(job, table, rows, q, h);
        forall p | 0 < p <= q
          ensures FlushesAt(job, table, rows, p) <==> Boundary(p, |rows|) && !Skipped(job, table, rows, p - 1)
        {
          SkippedIff(job, table, rows, p - 1);
        }
      }
    }
  }

  ghost predicate ReportsCompletion(job: Job, table: seq<Txn>, rows: seq<Row>) {
    exists e :: e in After(job, table, rows, |rows|).events && e.processed == |rows|
  }

  /** The last report says that all rows are processed, unless the last row was skipped. */
  lemma LastReportIff(job: Job, table: seq<Txn>, rows: seq<Row>)
    requires rows != []
    ensures ReportsCompletion(job, table, rows) <==> !Skipped(job, table, rows, |rows| - 1)
  {
    var n := |rows|;
    var w, w' := After(job, table, rows, n - 1), After(job, table, rows, n);
    ProgressAdvances(job, table, rows, n - 1);
    SkippedIff(job, table, rows, n - 1);
    if !Skips(w, job, rows[n - 1]) {
      assert w'.events[|w'.events| - 1].processed == n;
    }
  }

  /** Up to twenty rows: unless the table holds the last row exactly once. */
  lemma SmallBatchLastReportIff(job: Job, table: seq<Txn>, rows: seq<Row>)
    requires 0 < |rows| <= 20
    ensures ReportsCompletion(job, table, rows)
       <==> var r := rows[|rows| - 1]; r.Malformed? || Count(table, HashOf(job, r)) != 1
  {
    LastReportIff(job, table, rows);
  }

  /** How many chunks end among the first `k` of `n` rows. */
  function Boundaries(k: nat, n: nat): nat
    requires n > 0
  {
    if k == 0 then 0 else Boundaries(k - 1, n) + if Boundary(k, n) then 1 else 0
  }

  lemma {:induction false} OneReportPerChunk(job: Job, table: seq<Txn>, rows: seq<Row>, k: nat)
    requires k <= |rows| && rows != []
    ensures var w := After(job, table, rows, k);
      && |w.events| <= Boundaries(k, |rows|) <= |w.events| + w.skipped
  {
    if k > 0 {
      OneReportPerChunk(job, table, rows, k - 1);
    }
  }

  lemma AtLeastOnce(d: nat, c: nat)
    requires d > 0
    ensures d * c >= c
  {
  }

  lemma OneMore(q: nat, p: nat, c: nat)
    requires q > p
    ensures q * c >= p * c + c
  {
    AtLeastOnce(q - p, c);
    assert q * c == (q - p) * c + p * c;
  }

  lemma SameQuotient(c: nat, q: nat, r: nat, p: nat, s: nat)
    requires r < c && s < c && q * c + r == p * c + s
    ensures q == p && r == s
  {
    if q > p {
      OneMore(q, p, c);
    } else if q < p {
      OneMore(p, q, c);
    }
  }

  lemma DivIs(x: nat, c: nat, q: nat, r: nat)
    requires r < c && x == q * c + r
    ensures x / c == q && x % c == r
  {
    assert x == (x / c) * c + x % c;
    SameQuotient(c, q, r, x / c, x % c);
  }

  lemma DivStep(k: nat, c: nat)
    requires c > 0
    ensures (k + 1) / c == k / c + if (k + 1) % c == 0 then 1 else 0
  {
    var q, r := k / c, k % c;
    assert k == q * c + r;
    if r + 1 == c {
      assert (q + 1) * c == q * c + c;
      DivIs(k + 1, c, q + 1, 0);
    } else {
      DivIs(k + 1, c, q, r + 1);
    }
  }

  lemma {:induction false} BoundariesAre(k: nat, n: nat)
    requires k < n
    ensures Boundaries(k, n) == k / ChunkSize(n)
  {
    if k > 0 {
      BoundariesAre(k - 1, n);
      DivStep(k - 1, ChunkSize(n));
    }
  }

  /** `ceil(a / b)` */
  function CeilDiv(a: nat, b: nat): nat
    requires b > 0
  {
    a / b + if a % b == 0 then 0 else 1
  }

  /** Beyond twenty rows there are `20 + ceil((n mod 20) / (n div 20))` chunk ends. A run that skips no row
      reports each of them; no run makes more than 39 reports. */
  lemma ReportCount(job: Job, table: seq<Txn>, rows: seq<Row>)
    requires |rows| > 20
    ensures var n, w := |rows|, After(job, table, rows, |rows|);
      && |w.events| <= 20 + CeilDiv(n % 20, n / 20) <= 39
      && (w.skipped == 0 ==> |w.events| == 20 + CeilDiv(n % 20, n / 20))
  {
    var n, c := |rows|, ChunkSize(|rows|);
    OneReportPerChunk(job, table, rows, n);
    BoundariesAre(n - 1, n);
    DivStep(n - 1, c);
    TwentyChunks(n, c);
  }

  lemma TwentyChunks(n: nat, c: nat)
    requires n > 20 && c == n / 20
    ensures n / c == 20 + (n % 20) / c && n % c == (n % 20) % c
    ensures CeilDiv(n % 20, c) <= 19
  {
    var r := n % 20;
    var q, s := r / c, r % c;
    assert r == q * c + s;
    assert (20 + q) * c == 20 * c + q * c;
    DivIs(n, c, 20 + q, s);
    CeilAtMost(r, c);
  }

  lemma CeilAtMost(r: nat, c: nat)
    requires c > 0
    ensures CeilDiv(r, c) <= r
  {
    var q := r / c;
    assert r == q * c + r % c;
    AtLeastOnce(c, q);
  }
}

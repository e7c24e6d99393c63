/** Bulk loading of rates: rows found are changed in place, new rows wait for the flush at the end. */
module FxIngest {
  import opened Base
  import opened Ordering
  import opened Fx

  /** The rows loaded, the rows added and not yet flushed, and the two counts. */
  datatype Work = Work(table: seq<Rate>, pending: seq<Rate>, inserted: nat, updated: nat)

  /** Added rows are invisible to the query: it sees the table alone. */
  function Upsert(w: Work, row: Rate): Work {
    match Find(w.table, row.key)
    case None => w.(pending := w.pending + [row], inserted := w.inserted + 1)
    case Some(i) =>
      if w.table[i].rate != row.rate then w.(table := w.table[i := row], updated := w.updated + 1) else w
  }

  function UpsertAll(table: seq<Rate>, rows: seq<Rate>): Work {
    if rows == [] then Work(table, [], 0, 0)
    else Upsert(UpsertAll(table, rows[..|rows| - 1]), rows[|rows| - 1])
  }

  datatype Outcome = Counts(inserted: nat, updated: nat) | Rejected

  /** The column keeps a fixed number of decimals: `keep` is what a written rate becomes. */
  function Kept(keep: real -> real, rows: seq<Rate>): seq<Rate> {
    Map((r: Rate) => r.(rate := keep(r.rate)), rows)
  }

  /** The flush writes everything, unless two rows share a key; then the transaction is rolled back. */
  function Flush(keep: real -> real, table: seq<Rate>, w: Work): (Outcome, seq<Rate>) {
    if UniqueKeys(w.table + w.pending)
    then (Counts(w.inserted, w.updated), Kept(keep, w.table + w.pending))
    else (Rejected, table)
  }

  class RateSession {
    const keep: real -> real
    var table: seq<Rate>
    var pending: seq<Rate>

    constructor (keep: real -> real, table: seq<Rate>)
      ensures this.keep == keep && this.table == table && pending == []
    {
      this.keep, this.table, pending := keep, table, [];
    }

    method UpsertRates(rows: seq<Rate>) returns (result: Outcome)
      requires pending == []
      modifies this
      ensures (result, table) == Flush(keep, old(table), UpsertAll(old(table), rows))
      ensures pending == []
    {
      ghost var before := table;
      var saved := table;
      var inserted, updated := 0, 0;
      for i := 0 to |rows|
        invariant Work(table, pending, inserted, updated) == UpsertAll(before, rows[..i])
      {
        assert rows[..i + 1][..i] == rows[..i];
        var row := rows[i];
        match Find(table, row.key)
        case None =>
          pending := pending + [row];
          inserted := inserted + 1;
        case Some(at) =>
          if table[at].rate != row.rate {
            table := table[at := row];
            updated := updated + 1;
          }
      }
      assert rows[..|rows|] == rows;
      if UniqueKeys(table + pending) {
        table := Kept(keep, table + pending);
        result := Counts(inserted, updated);
      } else {
        table := saved;
        result := Rejected;
      }
      pending := [];
    }
  }

  // ----- What the batch leaves -----

  /** The rate of a key after these rows: the last one given for it, or else the table's. */
  function Value(table: seq<Rate>, rows: seq<Rate>, key: Key): Option<real> {
    if rows == [] then RateOf(table, key)
    else if rows[|rows| - 1].key == key then Some(rows[|rows| - 1].rate)
    else Value(table, rows[..|rows| - 1], key)
  }

  predicate New(table: seq<Rate>, r: Rate) { Find(table, r.key).None? }

  function NewRows(table: seq<Rate>, rows: seq<Rate>): seq<Rate> {
    Filter((r: Rate) => New(table, r), rows)
  }

  lemma NewRowsAre(table: seq<Rate>, rows: seq<Rate>)
    ensures forall r :: r in NewRows(table, rows) <==> r in rows && New(table, r)
  {
    FilterMembers((r: Rate) => New(table, r), rows);
  }

  lemma NewRowsSnoc(table: seq<Rate>, rows: seq<Rate>, r: Rate)
    ensures NewRows(table, rows + [r]) == NewRows(table, rows) + if New(table, r) then [r] else []
  {
    FilterSnoc((x: Rate) => New(table, x), rows, r);
  }

  /** How many rows give a stored key another rate than it has by then. */
  function Changes(table: seq<Rate>, rows: seq<Rate>): nat {
    if rows == [] then 0
    else
      var front, r := rows[..|rows| - 1], rows[|rows| - 1];
      Changes(table, front) + if !New(table, r) && Value(table, front, r.key) != Some(r.rate) then 1 else 0
  }

  lemma FindByKeys(a: seq<Rate>, b: seq<Rate>, key: Key)
    requires |a| == |b| && forall i :: 0 <= i < |a| ==> a[i].key == b[i].key
    ensures Find(a, key) == Find(b, key)
  {
  }

  lemma {:induction false} UpsertAllIs(table: seq<Rate>, rows: seq<Rate>)
    requires UniqueKeys(table)
    ensures var w := UpsertAll(table, rows);
      && |w.table| == |table|
      && (forall i :: 0 <= i < |table| ==>
            w.table[i].key == table[i].key && Value(table, rows, table[i].key) == Some(w.table[i].rate))
      && w.pending == NewRows(table, rows)
      && w.inserted == |w.pending| && w.updated == Changes(table, rows)
  {
    if rows == [] {
      forall i | 0 <= i < |table| ensures Value(table, rows, table[i].key) == Some(table[i].rate) {
        FindIs(table, table[i].key, i);
      }
    } else {
      var front, r := rows[..|rows| - 1], rows[|rows| - 1];
      UpsertAllIs(table, front);
      FindByKeys(UpsertAll(table, front).table, table, r.key);
      NewRowsSnoc(table, front, r);
      assert rows == front + [r];
      if !New(table, r) {
        var at := Find(table, r.key).value;
        forall i | 0 <= i < |table| && table[i].key == r.key ensures i == at {
          FindIs(table, r.key, i);
        }
      }
    }
  }

  ghost predicate HasKey(s: seq<Rate>, key: Key) {
    exists i :: 0 <= i < |s| && s[i].key == key
  }

  /** Some new key is given more than once. */
  ghost predicate RepeatsNew(table: seq<Rate>, rows: seq<Rate>) {
    exists i, j :: 0 <= i < j < |rows| && rows[i].key == rows[j].key && New(table, rows[i])
  }

  lemma UniqueConcat(a: seq<Rate>, b: seq<Rate>)
    requires UniqueKeys(a) && forall i, j :: 0 <= i < |a| && 0 <= j < |b| ==> a[i].key != b[j].key
    ensures UniqueKeys(a + b) <==> UniqueKeys(b)
  {
    var s := a + b;
    if UniqueKeys(b) {
      forall i, j | 0 <= i < j < |s| ensures s[i].key != s[j].key {
        if i < |a| <= j {
          assert s[i] == a[i] && s[j] == b[j - |a|];
        }
      }
    }
    if UniqueKeys(s) {
      forall i, j | 0 <= i < j < |b| ensures b[i].key != b[j].key {
        assert s[|a| + i].key != s[|a| + j].key;
      }
    }
  }

  /** A batch is refused exactly when it gives a new key more than once. */
  lemma RejectedIff(keep: real -> real, table: seq<Rate>, rows: seq<Rate>)
    requires UniqueKeys(table)
    ensures Flush(keep, table, UpsertAll(table, rows)).0.Rejected? <==> RepeatsNew(table, rows)
  {
    var w := UpsertAll(table, rows);
    UpsertAllIs(table, rows);
    NewRowsRepeatIff(table, rows);
    PendingIsNew(table, rows);
    forall i, j | 0 <= i < |w.table| && 0 <= j < |w.pending| ensures w.table[i].key != w.pending[j].key {
      assert w.table[i].key == table[i].key;
    }
    UniqueConcat(w.table, w.pending);
  }

  lemma PendingIsNew(table: seq<Rate>, rows: seq<Rate>)
    ensures var p := NewRows(table, rows);
      forall i, j :: 0 <= i < |table| && 0 <= j < |p| ==> table[i].key != p[j].key
  {
    var p := NewRows(table, rows);
    NewRowsAre(table, rows);
    forall i, j | 0 <= i < |table| && 0 <= j < |p| ensures table[i].key != p[j].key {
      assert p[j] in p;
    }
  }

  lemma UniqueKeysSnoc(s: seq<Rate>, r: Rate)
    ensures UniqueKeys(s + [r]) <==> UniqueKeys(s) && !HasKey(s, r.key)
  {
    var t := s + [r];
    assert t[|s|] == r && forall i :: 0 <= i < |s| ==> t[i] == s[i];
  }

  lemma RepeatsNewSnoc(table: seq<Rate>, front: seq<Rate>, r: Rate)
    ensures RepeatsNew(table, front + [r])
       <==> RepeatsNew(table, front) || (New(table, r) && HasKey(front, r.key))
  {
    var rows := front + [r];
    assert rows[|front|] == r && forall i :: 0 <= i < |front| ==> rows[i] == front[i];
    if RepeatsNew(table, front) {
      var i, j :| 0 <= i < j < |front| && front[i].key == front[j].key && New(table, front[i]);
      assert rows[i].key == rows[j].key;
    }
    if HasKey(front, r.key) {
      var i :| 0 <= i < |front| && front[i].key == r.key;
      assert rows[i].key == rows[|front|].key;
    }
  }

  lemma NewKeyIsKept(table: seq<Rate>, front: seq<Rate>, r: Rate)
    requires New(table, r)
    ensures HasKey(NewRows(table, front), r.key) <==> HasKey(front, r.key)
  {
    var kept := NewRows(table, front);
    NewRowsAre(table, front);
    if HasKey(front, r.key) {
      var i :| 0 <= i < |front| && front[i].key == r.key;
      assert front[i] in kept;
      var j :| 0 <= j < |kept| && kept[j] == front[i];
    }
    if HasKey(kept, r.key) {
      var i :| 0 <= i < |kept| && kept[i].key == r.key;
      assert kept[i] in front;
      var j :| 0 <= j < |front| && front[j] == kept[i];
    }
  }

  lemma {:induction false} NewRowsRepeatIff(table: seq<Rate>, rows: seq<Rate>)
    ensures UniqueKeys(NewRows(table, rows)) <==> !RepeatsNew(table, rows)
  {
    if rows != [] {
      var front, r := rows[..|rows| - 1], rows[|rows| - 1];
      assert rows == front + [r];
      NewRowsRepeatIff(table, front);
      NewRowsSnoc(table, front, r);
      RepeatsNewSnoc(table, front, r);
      assert RepeatsNew(table, rows) <==> RepeatsNew(table, front) || (New(table, r) && HasKey(front, r.key));
      if New(table, r) {
        NewKeyIsKept(table, front, r);
        UniqueKeysSnoc(NewRows(table, front), r);
      } else {
        assert NewRows(table, rows) == NewRows(table, front);
      }
    }
  }

  // ----- The table afterwards -----

  function After(keep: real -> real, table: seq<Rate>, rows: seq<Rate>): seq<Rate> {
    Flush(keep, table, UpsertAll(table, rows)).1
  }

  /** The rates already in the table are ones its column can hold. */
  ghost predicate AllKept(keep: real -> real, table: seq<Rate>) {
    forall r :: r in table ==> keep(r.rate) == r.rate
  }

  function KeptValue(keep: real -> real, v: Option<real>): Option<real> {
    if v.None? then None else Some(keep(v.value))
  }

  lemma {:induction false} ValueOfNew(table: seq<Rate>, rows: seq<Rate>, key: Key)
    requires Find(table, key).None?
    ensures !HasKey(rows, key) ==> Value(table, rows, key).None?
    ensures forall i :: 0 <= i < |rows| && rows[i].key == key && !RepeatsNew(table, rows)
                    ==> Value(table, rows, key) == Some(rows[i].rate)
  {
    if rows != [] {
      var front, r := rows[..|rows| - 1], rows[|rows| - 1];
      ValueOfNew(table, front, key);
      RepeatsNewSnoc(table, front, r);
      assert rows == front + [r];
    }
  }

  /** Accepted, a batch leaves the old table overridden by its rows, the last row of a key winning. */
  lemma TableIsOverridden(keep: real -> real, table: seq<Rate>, rows: seq<Rate>, key: Key)
    requires UniqueKeys(table) && !RepeatsNew(table, rows)
    ensures UniqueKeys(After(keep, table, rows))
    ensures RateOf(After(keep, table, rows), key) == KeptValue(keep, Value(table, rows, key))
  {
    var w, after := UpsertAll(table, rows), After(keep, table, rows);
    UpsertAllIs(table, rows);
    RejectedIff(keep, table, rows);
    assert after == Kept(keep, w.table + w.pending);
    assert |after| == |w.table| + |w.pending|;
    KeptIs(keep, w.table + w.pending, key);
    match Find(w.table + w.pending, key)
    case Some(i) =>
      if i >= |table| {
        PendingIs(table, rows, i - |table|);
      }
    case None =>
      NothingUnder(table, rows, key, w);
  }

  lemma KeptIs(keep: real -> real, rows: seq<Rate>, key: Key)
    requires UniqueKeys(rows)
    ensures UniqueKeys(Kept(keep, rows))
    ensures RateOf(Kept(keep, rows), key) == KeptValue(keep, RateOf(rows, key))
  {
  }

  lemma PendingIs(table: seq<Rate>, rows: seq<Rate>, j: nat)
    requires !RepeatsNew(table, rows) && j < |NewRows(table, rows)|
    ensures var r := NewRows(table, rows)[j];
      Value(table, rows, r.key) == Some(r.rate)
  {
    var p := NewRows(table, rows);
    NewRowsAre(table, rows);
    assert p[j] in p;
    var i :| 0 <= i < |rows| && rows[i] == p[j];
    ValueOfNew(table, rows, p[j].key);
  }

  lemma FindConcat(a: seq<Rate>, b: seq<Rate>, key: Key)
    ensures Find(a + b, key).None? ==> Find(a, key).None? && !HasKey(b, key)
  {
    var s := a + b;
    if Find(s, key).None? {
      forall i | 0 <= i < |a| ensures a[i].key != key {
        assert s[i] == a[i];
      }
      forall j | 0 <= j < |b| ensures b[j].key != key {
        assert s[|a| + j] == b[j];
      }
    }
  }

  lemma NothingUnder(table: seq<Rate>, rows: seq<Rate>, key: Key, w: Work)
    requires UniqueKeys(table) && w == UpsertAll(table, rows) && Find(w.table + w.pending, key).None?
    ensures Value(table, rows, key).None?
  {
    UpsertAllIs(table, rows);
    FindConcat(w.table, w.pending, key);
    FindByKeys(w.table, table, key);
    NewKeyIsKept(table, rows, Rate(key, 0.0));
    ValueOfNew(table, rows, key);
  }

  // ----- Counts, and loading the same batch again -----

  predicate DifferentStored(table: seq<Rate>, r: Rate) {
    RateOf(table, r.key).Some? && RateOf(table, r.key) != Some(r.rate)
  }

  /** With distinct keys: the new ones are inserted, and the ones stored with another rate updated. */
  lemma {:induction false} CountsForDistinctKeys(table: seq<Rate>, rows: seq<Rate>)
    requires UniqueKeys(table) && UniqueKeys(rows)
    ensures UpsertAll(table, rows).inserted == |NewRows(table, rows)|
    ensures UpsertAll(table, rows).updated == |Filter((r: Rate) => DifferentStored(table, r), rows)|
  {
    var p := (r: Rate) => DifferentStored(table, r);
    UpsertAllIs(table, rows);
    if rows != [] {
      var front, r := rows[..|rows| - 1], rows[|rows| - 1];
      CountsForDistinctKeys(table, front);
      UpsertAllIs(table, front);
      FilterSnoc(p, front, r);
      assert rows == front + [r];
      ValueElsewhere(table, front, r.key);
    }
  }

  lemma {:induction false} ValueElsewhere(table: seq<Rate>, rows: seq<Rate>, key: Key)
    ensures !HasKey(rows, key) ==> Value(table, rows, key) == RateOf(table, key)
    ensures HasKey(rows, key) ==>
      exists i :: 0 <= i < |rows| && rows[i].key == key && Value(table, rows, key) == Some(rows[i].rate)
  {
    if rows != [] {
      var front := rows[..|rows| - 1];
      ValueElsewhere(table, front, key);
      if HasKey(rows, key) && rows[|rows| - 1].key != key {
        var i :| 0 <= i < |rows| && rows[i].key == key;
        assert front[i].key == key;
        var j :| 0 <= j < |front| && front[j].key == key && Value(table, front, key) == Some(front[j].rate);
        assert rows[j] == front[j];
      }
      if HasKey(front, key) {
        var i :| 0 <= i < |front| && front[i].key == key;
        assert rows[i].key == key;
      }
    }
  }

  lemma {:induction false} UnchangedIff(table: seq<Rate>, rows: seq<Rate>)
    requires forall i :: 0 <= i < |rows| ==> !New(table, rows[i])
    ensures Changes(table, rows) == 0
       <==> forall i :: 0 <= i < |rows| ==> RateOf(table, rows[i].key) == Some(rows[i].rate)
    ensures Changes(table, rows) == 0 ==> forall key :: Value(table, rows, key) == RateOf(table, key)
  {
    if rows != [] {
      var front := rows[..|rows| - 1];
      forall i | 0 <= i < |front| ensures !New(table, front[i]) {
        assert front[i] == rows[i];
      }
      UnchangedIff(table, front);
      assert forall i :: 0 <= i < |front| ==> front[i] == rows[i];
    }
  }

  /** No key carries two rates, and the column can hold each rate as given. */
  ghost predicate Steady(keep: real -> real, rows: seq<Rate>) {
    && (forall i, j :: 0 <= i < |rows| && 0 <= j < |rows| && rows[i].key == rows[j].key
                   ==> rows[i].rate == rows[j].rate)
    && (forall i :: 0 <= i < |rows| ==> keep(rows[i].rate) == rows[i].rate)
  }

  lemma KeptValuesIff(keep: real -> real, table: seq<Rate>, rows: seq<Rate>)
    ensures Steady(keep, rows)
       <==> forall i :: 0 <= i < |rows| ==> KeptValue(keep, Value(table, rows, rows[i].key)) == Some(rows[i].rate)
  {
    forall i | 0 <= i < |rows| ensures exists k ::
      0 <= k < |rows| && rows[k].key == rows[i].key && Value(table, rows, rows[i].key) == Some(rows[k].rate)
    {
      assert HasKey(rows, rows[i].key);
      ValueElsewhere(table, rows, rows[i].key);
    }
  }

  lemma NothingNewAgain(keep: real -> real, table: seq<Rate>, rows: seq<Rate>)
    requires UniqueKeys(table) && !RepeatsNew(table, rows)
    ensures forall i :: 0 <= i < |rows| ==> !New(After(keep, table, rows), rows[i])
  {
    forall i | 0 <= i < |rows| ensures !New(After(keep, table, rows), rows[i]) {
      assert HasKey(rows, rows[i].key);
      ValueElsewhere(table, rows, rows[i].key);
      TableIsOverridden(keep, table, rows, rows[i].key);
    }
  }

  /** Loading an accepted batch again is accepted, inserts nothing and leaves every rate as it is. It also
      reports no update exactly when no key carries two rates and every rate fits the column. */
  lemma AgainChangesNothing(keep: real -> real, table: seq<Rate>, rows: seq<Rate>, key: Key)
    requires UniqueKeys(table) && !RepeatsNew(table, rows) && forall x :: keep(keep(x)) == keep(x)
    ensures var first := After(keep, table, rows);
      var again := Flush(keep, first, UpsertAll(first, rows));
      && again.0.Counts? && again.0.inserted == 0
      && RateOf(again.1, key) == RateOf(first, key)
      && (again.0.updated == 0 <==> Steady(keep, rows))
  {
    var first := After(keep, table, rows);
    NothingNewAgain(keep, table, rows);
    TableIsOverridden(keep, table, rows, key);
    assert !RepeatsNew(first, rows);
    RejectedIff(keep, first, rows);
    UpsertAllIs(first, rows);
    TableIsOverridden(keep, first, rows, key);
    ValueElsewhere(first, rows, key);
    ValueSame(table, first, rows, key);
    NoNewRows(first, rows);
    UnchangedIff(first, rows);
    KeptValuesIff(keep, table, rows);
    forall i | 0 <= i < |rows|
      ensures RateOf(first, rows[i].key) == KeptValue(keep, Value(table, rows, rows[i].key))
    {
      TableIsOverridden(keep, table, rows, rows[i].key);
    }
  }

  lemma NoNewRows(table: seq<Rate>, rows: seq<Rate>)
    requires forall i :: 0 <= i < |rows| ==> !New(table, rows[i])
    ensures NewRows(table, rows) == []
  {
    var p := NewRows(table, rows);
    assert p == [] || p[0] in p;
    NewRowsAre(table, rows);
  }

  lemma {:induction false} ValueSame(a: seq<Rate>, b: seq<Rate>, rows: seq<Rate>, key: Key)
    ensures HasKey(rows, key) ==> Value(a, rows, key) == Value(b, rows, key)
  {
    if rows != [] {
      var front := rows[..|rows| - 1];
      ValueSame(a, b, front, key);
      if HasKey(rows, key) && rows[|rows| - 1].key != key {
        var i :| 0 <= i < |rows| && rows[i].key == key;
        assert front[i].key == key;
      }
    }
  }

  // ----- What one loaded row changes -----

  lemma RateOfIff(table: seq<Rate>, s: Rate)
    requires UniqueKeys(table)
    ensures s in table <==> RateOf(table, s.key) == Some(s.rate)
  {
  }

  /** A loaded row changes lookups for its own pair only, from its date up to that pair's next stored
      date; there they give its rate, as the column keeps it. */
  lemma LoadedRowChangesItsStretch(
      keep: real -> real, table: seq<Rate>, r: Rate, on: int, source: string, target: string)
    requires UniqueKeys(table) && AllKept(keep, table) && source != target
    ensures GetRate(After(keep, table, [r]), on, source, target)
         == if Usable(r, on, source, target)
               && !exists s :: s in table && Usable(s, on, source, target) && s.key.date > r.key.date
            then Found(keep(r.rate)) else GetRate(table, on, source, target)
  {
    var after, kept := After(keep, table, [r]), r.(rate := keep(r.rate));
    TableIsOverridden(keep, table, [r], r.key);
    assert Value(table, [r], r.key) == Some(r.rate);
    RateOfIff(after, kept);
    forall s: Rate | s.key != r.key ensures s in table <==> s in after {
      TableIsOverridden(keep, table, [r], s.key);
      assert Value(table, [r], s.key) == Value(table, [], s.key) == RateOf(table, s.key) by { assert [r][..0] == []; }
      RateOfIff(table, s);
      RateOfIff(after, s);
      if RateOf(table, s.key).Some? {
        assert table[Find(table, s.key).value] in table;
      }
    }
    OneRowChangesItsStretch(table, after, kept, on, source, target);
    assert Usable(kept, on, source, target) == Usable(r, on, source, target);
  }
}

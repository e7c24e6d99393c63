/** Exchange rates: one row per date and currency pair, loaded in bulk and looked up by date. */
module Fx {
  import opened Base
  import opened Ordering

  datatype Key = Key(date: int, source: string, target: string)

  datatype Rate = Rate(key: Key, rate: real)

  predicate UniqueKeys(table: seq<Rate>) {
    forall i, j :: 0 <= i < j < |table| ==> table[i].key != table[j].key
  }

  /** The rate stored under a key. */
  function Find(table: seq<Rate>, key: Key): (at: Option<nat>)
    ensures at.Some? ==> at.value < |table| && table[at.value].key == key
    ensures at.None? ==> forall i :: 0 <= i < |table| ==> table[i].key != key
  {
    if table == [] then None
    else if table[|table| - 1].key == key then Some(|table| - 1)
    else Find(table[..|table| - 1], key)
  }

  function RateOf(table: seq<Rate>, key: Key): Option<real> {
    match Find(table, key)
    case None => None
    case Some(i) => Some(table[i].rate)
  }

  lemma FindIs(table: seq<Rate>, key: Key, i: nat)
    requires UniqueKeys(table) && i < |table| && table[i].key == key
    ensures Find(table, key) == Some(i)
  {
  }

  // ----- Looking up -----

  predicate Usable(r: Rate, on: int, source: string, target: string) {
    r.key.source == source && r.key.target == target && r.key.date <= on
  }

  function UsableOn(on: int, source: string, target: string): Rate -> bool {
    (r: Rate) => Usable(r, on, source, target)
  }

  predicate Newer(a: Rate, b: Rate) { a.key.date > b.key.date }

  /** The newest row on or before the date: at most one. */
  function Newest(table: seq<Rate>, on: int, source: string, target: string): seq<Rate> {
    Take(1, Sort(Newer, Filter(UsableOn(on, source, target), table)))
  }

  datatype Found = Found(rate: real) | Missing(on: int, source: string, target: string)

  function GetRate(table: seq<Rate>, on: int, source: string, target: string): Found {
    if source == target then Found(1.0)
    else
      var rows := Newest(table, on, source, target);
      if rows == [] then Missing(on, source, target) else Found(rows[0].rate)
  }

  /** What an imported row keeps: nothing for the base currency, nothing when no rate is known. */
  function Attach(table: seq<Rate>, base: string, source: string, on: int): Option<real> {
    if source == base then None
    else
      match GetRate(table, on, source, base)
      case Found(rate) => Some(rate)
      case Missing(_, _, _) => None
  }

  /** The worker's own query: the usable row with the largest date, the first of them read. */
  function Latest(table: seq<Rate>, on: int, source: string, target: string): Option<Rate> {
    if table == [] then None
    else
      var r, later := table[0], Latest(table[1..], on, source, target);
      if Usable(r, on, source, target) && (later.None? || later.value.key.date <= r.key.date) then Some(r) else later
  }

  /** The worker's own copy of the lookup. */
  function AttachSync(table: seq<Rate>, base: string, source: string, on: int): Option<real> {
    if source == base then None
    else
      match Latest(table, on, source, base)
      case None => None
      case Some(row) => Some(row.rate)
  }

  /** Sorting the usable rows and taking one finds what scanning for the largest date finds. */
  lemma {:induction false} NewestIsLatest(table: seq<Rate>, on: int, source: string, target: string)
    ensures Newest(table, on, source, target)
         == match Latest(table, on, source, target) case None => [] case Some(r) => [r]
  {
    if table != [] {
      var r, p := table[0], UsableOn(on, source, target);
      var rest := Sort(Newer, Filter(p, table[1..]));
      NewestIsLatest(table[1..], on, source, target);
      if p(r) {
        var usable := Filter(p, table);
        assert usable == [r] + Filter(p, table[1..]);
        assert usable[0] == r && usable[1..] == Filter(p, table[1..]);
        assert Sort(Newer, usable) == Insert(Newer, r, rest);
      } else {
        assert Filter(p, table) == Filter(p, table[1..]);
      }
    }
  }

  /** The two copies of the lookup agree on every table. */
  lemma AttachesAgree(table: seq<Rate>, base: string, source: string, on: int)
    ensures Attach(table, base, source, on) == AttachSync(table, base, source, on)
  {
    NewestIsLatest(table, on, source, base);
  }

  /** The row that applies on a date: no other usable row is newer. */
  ghost predicate Applies(table: seq<Rate>, r: Rate, on: int, source: string, target: string) {
    && r in table && Usable(r, on, source, target)
    && forall s :: s in table && Usable(s, on, source, target) ==> s.key.date <= r.key.date
  }

  lemma NewestIs(table: seq<Rate>, on: int, source: string, target: string)
    ensures Newest(table, on, source, target) == []
       <==> forall r :: r in table ==> !Usable(r, on, source, target)
    ensures Newest(table, on, source, target) != []
        ==> Applies(table, Newest(table, on, source, target)[0], on, source, target)
  {
    var rows := Filter(UsableOn(on, source, target), table);
    var sorted := Sort(Newer, rows);
    SortSorts(Newer, rows);
    FilterMembers(UsableOn(on, source, target), table);
    if sorted == [] {
      forall r | r in table ensures !Usable(r, on, source, target) {
        assert r !in rows;
      }
    } else {
      assert sorted[0] in rows;
      forall s | s in table && Usable(s, on, source, target) ensures s.key.date <= sorted[0].key.date {
        assert s in sorted;
        var i :| 0 <= i < |sorted| && sorted[i] == s;
        assert i > 0 ==> !Newer(sorted[i], sorted[0]);
      }
    }
  }

  /** The lookup finds exactly the rate of the latest row on or before the date. */
  lemma GetRateIff(table: seq<Rate>, on: int, source: string, target: string, rate: real)
    requires UniqueKeys(table) && source != target
    ensures GetRate(table, on, source, target) == Found(rate)
       <==> exists r :: Applies(table, r, on, source, target) && r.rate == rate
    ensures GetRate(table, on, source, target).Missing?
       <==> forall r :: r in table ==> !Usable(r, on, source, target)
  {
    NewestIs(table, on, source, target);
    var rows := Newest(table, on, source, target);
    forall r, s | Applies(table, r, on, source, target) && Applies(table, s, on, source, target) ensures r == s {
      assert r.key == s.key;
    }
  }

  /** `after` holds what `before` does, except that `r` is its row for `r.key`. */
  ghost predicate OneRowSet(before: seq<Rate>, after: seq<Rate>, r: Rate) {
    && UniqueKeys(before) && UniqueKeys(after) && r in after
    && forall s: Rate :: s.key != r.key ==> (s in before <==> s in after)
  }

  /** Setting one row changes lookups for its pair only, and only from its date up to the next stored
      date of that pair; there they give the new rate. */
  lemma OneRowChangesItsStretch(before: seq<Rate>, after: seq<Rate>, r: Rate, on: int, source: string, target: string)
    requires OneRowSet(before, after, r) && source != target
    ensures GetRate(after, on, source, target)
         == if Usable(r, on, source, target)
               && !exists s :: s in before && Usable(s, on, source, target) && s.key.date > r.key.date
            then Found(r.rate) else GetRate(before, on, source, target)
  {
    NewestIs(after, on, source, target);
    NewestIs(before, on, source, target);
    var rows, was := Newest(after, on, source, target), Newest(before, on, source, target);
    if Usable(r, on, source, target) {
      var now := rows[0];
      if now.key != r.key {
        assert now in before;
      }
    }
  }
}

/** The loaders that aggregate transactions for the cash-drop and vendor-spike generators. */
module Loaders {
  import opened Base
  import opened Ordering
  import opened Generators

  datatype Txn = Txn(id: string, date: int, amount: real, canonical: string, raw: string)

  /** Monday of the week of day `d`; day 1 is a Monday. */
  function WeekStart(d: int): int { d - (d + 6) % 7 }

  lemma WeekStartIs(d: int)
    ensures WeekStart(d) <= d < WeekStart(d) + 7 && WeekStart(d) % 7 == 1
    ensures forall e :: WeekStart(d) <= e < WeekStart(d) + 7 ==> WeekStart(e) == WeekStart(d)
  {
  }

  // ----- Cash history -----

  function WeekOf(t: Txn): int { WeekStart(t.date) }

  function Net(txns: seq<Txn>, w: int): real {
    Sum((t: Txn) => if WeekOf(t) == w then t.amount else 0.0, txns)
  }

  function InWeek(txns: seq<Txn>, w: int): seq<(string, real)> {
    Map((t: Txn) => (t.id, t.amount), Filter((t: Txn) => WeekOf(t) == w, txns))
  }

  function Recent(txns: seq<Txn>, today: int): seq<Txn> {
    Filter((t: Txn) => t.date >= today - 21, txns)
  }

  /** The weeks with a transaction, oldest first. */
  function Weeks(txns: seq<Txn>): seq<int> {
    SortedKeys(Map(WeekOf, txns))
  }

  /** The net flow of `weeks[k..]` together. */
  function NetFrom(weeks: seq<int>, txns: seq<Txn>, k: nat): real
    decreases |weeks| - k
  {
    if k >= |weeks| then 0.0 else Net(txns, weeks[k]) + NetFrom(weeks, txns, k + 1)
  }

  /** Ending cash of each active week: today's balance less the net of all later active weeks. */
  function EndingCash(weeks: seq<int>, txns: seq<Txn>, balance: real): seq<(int, real)> {
    seq(|weeks|, k requires 0 <= k < |weeks| => (weeks[k], balance - NetFrom(weeks, txns, k + 1)))
  }

  function Outflows(txns: seq<(string, real)>): seq<(string, real)> {
    Filter((t: (string, real)) => t.1 < 0.0, txns)
  }

  /** The history and the outflows of the latest active week. An absent and a zero balance are
      treated alike. */
  function CashHistory(balance: Option<real>, txns: seq<Txn>, today: int): (seq<(int, real)>, seq<(string, real)>) {
    var recent := Recent(txns, today);
    var weeks := Weeks(recent);
    if balance.None? || balance.value == 0.0 || weeks == [] then ([], [])
    else (EndingCash(weeks, recent, balance.value), Outflows(InWeek(recent, weeks[|weeks| - 1])))
  }

  lemma SnocFacts(txns: seq<Txn>, i: nat, w: int)
    requires i < |txns|
    ensures Net(txns[..i + 1], w) == Net(txns[..i], w) + (if WeekOf(txns[i]) == w then txns[i].amount else 0.0)
    ensures InWeek(txns[..i + 1], w)
            == InWeek(txns[..i], w) + (if WeekOf(txns[i]) == w then [(txns[i].id, txns[i].amount)] else [])
  {
    assert txns[..i + 1][..i] == txns[..i];
    MapFilterSnoc((t: Txn) => (t.id, t.amount), (t: Txn) => WeekOf(t) == w, txns, i);
  }

  lemma WeekAbsent(txns: seq<Txn>, w: int)
    requires forall t :: t in txns ==> WeekOf(t) != w
    ensures Net(txns, w) == 0.0 && InWeek(txns, w) == []
  {
    if txns != [] {
      var n := |txns| - 1;
      WeekAbsent(txns[..n], w);
      assert txns[..n + 1] == txns;
      SnocFacts(txns, n, w);
      assert txns[n] in txns;
    }
  }

  /** The two dictionaries of the first loop, and the order of their keys. */
  ghost predicate Bucketed(txns: seq<Txn>, keys: seq<int>, net: map<int, real>, byWeek: map<int, seq<(string, real)>>) {
    && keys == Distinct(Map(WeekOf, txns))
    && (forall w :: w in net <==> w in keys)
    && (forall w :: w in byWeek <==> w in keys)
    && forall w :: w in keys ==> net[w] == Net(txns, w) && byWeek[w] == InWeek(txns, w)
  }

  /** `d[k]` of a `defaultdict`. */
  function Get<V>(d: map<int, V>, k: int, default: V): V {
    if k in d then d[k] else default
  }

  lemma NewWeek(txns: seq<Txn>, w: int)
    requires w !in Distinct(Map(WeekOf, txns))
    ensures Net(txns, w) == 0.0 && InWeek(txns, w) == []
  {
    DistinctIs(Map(WeekOf, txns));
    MapMembers(WeekOf, txns);
    WeekAbsent(txns, w);
  }

  lemma WeekStep(
      txns: seq<Txn>, i: nat, keys: seq<int>, net: map<int, real>, byWeek: map<int, seq<(string, real)>>, w: int)
    requires i < |txns| && Bucketed(txns[..i], keys, net, byWeek) && (w in keys || w == WeekOf(txns[i]))
    ensures var ws := WeekOf(txns[i]);
      && Net(txns[..i + 1], w) == (if w == ws then Get(net, ws, 0.0) + txns[i].amount else net[w])
      && InWeek(txns[..i + 1], w)
         == (if w == ws then Get(byWeek, ws, []) + [(txns[i].id, txns[i].amount)] else byWeek[w])
  {
    SnocFacts(txns, i, w);
    if w !in keys {
      NewWeek(txns[..i], w);
    }
  }

  lemma KeysStep(txns: seq<Txn>, i: nat, keys: seq<int>)
    requires i < |txns| && keys == Distinct(Map(WeekOf, txns[..i]))
    ensures Distinct(Map(WeekOf, txns[..i + 1]))
         == if WeekOf(txns[i]) in keys then keys else keys + [WeekOf(txns[i])]
  {
    var weeks := Map(WeekOf, txns[..i + 1]);
    assert weeks[..i] == Map(WeekOf, txns[..i]);
    assert weeks[i] == WeekOf(txns[i]);
  }

  lemma BucketStep(
      txns: seq<Txn>, i: nat, keys: seq<int>, net: map<int, real>, byWeek: map<int, seq<(string, real)>>,
      keys': seq<int>, net': map<int, real>, byWeek': map<int, seq<(string, real)>>)
    requires i < |txns| && Bucketed(txns[..i], keys, net, byWeek)
    requires var ws := WeekOf(txns[i]);
      && keys' == (if ws in keys then keys else keys + [ws])
      && net' == net[ws := Get(net, ws, 0.0) + txns[i].amount]
      && byWeek' == byWeek[ws := Get(byWeek, ws, []) + [(txns[i].id, txns[i].amount)]]
    ensures Bucketed(txns[..i + 1], keys', net', byWeek')
  {
    KeysStep(txns, i, keys);
    forall w | w in keys' ensures net'[w] == Net(txns[..i + 1], w) && byWeek'[w] == InWeek(txns[..i + 1], w) {
      WeekStep(txns, i, keys, net, byWeek, w);
    }
  }

  method Bucket(recent: seq<Txn>)
    returns (keys: seq<int>, net: map<int, real>, byWeek: map<int, seq<(string, real)>>)
    ensures Bucketed(recent, keys, net, byWeek)
  {
    keys, net, byWeek := [], map[], map[];
    for i := 0 to |recent|
      invariant Bucketed(recent[..i], keys, net, byWeek)
    {
      var r := recent[i];
      var ws := WeekOf(r);
      ghost var keys0, net0, byWeek0 := keys, net, byWeek;
      keys := if ws in keys then keys else keys + [ws];
      net := net[ws := Get(net, ws, 0.0) + r.amount];
      byWeek := byWeek[ws := Get(byWeek, ws, []) + [(r.id, r.amount)]];
      BucketStep(recent, i, keys0, net0, byWeek0, keys, net, byWeek);
    }
    assert recent[..|recent|] == recent;
  }

  /** From the latest week back, then turned round. */
  method WalkBack(weeks: seq<int>, net: map<int, real>, balance: real, ghost txns: seq<Txn>)
    returns (history: seq<(int, real)>)
    requires forall k :: 0 <= k < |weeks| ==> weeks[k] in net && net[weeks[k]] == Net(txns, weeks[k])
    ensures history == EndingCash(weeks, txns, balance)
  {
    history := [];
    var rolling := balance;
    var n := |weeks|;
    for k := n downto 0
      invariant |history| == n - k
      invariant rolling == balance - NetFrom(weeks, txns, k)
      invariant forall i :: 0 <= i < n - k ==>
                  history[i] == (weeks[n - 1 - i], balance - NetFrom(weeks, txns, n - i))
    {
      history := history + [(weeks[k], rolling)];
      rolling := rolling - net[weeks[k]];
    }
    history := seq(n, i requires 0 <= i < n => history[n - 1 - i]);
  }

  method LoadCashHistory(balance: Option<real>, txns: seq<Txn>, today: int)
    returns (history: seq<(int, real)>, drops: seq<(string, real)>)
    ensures (history, drops) == CashHistory(balance, txns, today)
  {
    if balance.None? || balance.value == 0.0 { return [], []; }
    var recent := Recent(txns, today);
    var keys, net, byWeek := Bucket(recent);
    var weeks := Sort((x: int, y: int) => x < y, keys);
    assert weeks == Weeks(recent);
    if weeks == [] { return [], []; }
    forall k | 0 <= k < |weeks| ensures weeks[k] in net && net[weeks[k]] == Net(recent, weeks[k]) {
      assert weeks[k] in Weeks(recent);
      KeyOfWeek(recent, keys, net, byWeek, weeks[k]);
    }
    history := WalkBack(weeks, net, balance.value, recent);
    var latest := weeks[|weeks| - 1];
    assert latest in Weeks(recent);
    KeyOfWeek(recent, keys, net, byWeek, latest);
    drops := Outflows(byWeek[latest]);
  }

  lemma KeyOfWeek(
      txns: seq<Txn>, keys: seq<int>, net: map<int, real>, byWeek: map<int, seq<(string, real)>>, w: int)
    requires Bucketed(txns, keys, net, byWeek) && w in Weeks(txns)
    ensures w in net && net[w] == Net(txns, w) && w in byWeek && byWeek[w] == InWeek(txns, w)
  {
    SortedKeysIs(Map(WeekOf, txns));
    DistinctIs(Map(WeekOf, txns));
    assert w in Map(WeekOf, txns);
    assert w in keys;
  }

  lemma {:induction false} NetFromSnoc(weeks: seq<int>, txns: seq<Txn>, k: nat)
    requires txns != [] && k <= |weeks|
    requires forall i, j :: 0 <= i < j < |weeks| ==> weeks[i] != weeks[j]
    ensures var n := |txns| - 1;
            NetFrom(weeks, txns, k)
            == NetFrom(weeks, txns[..n], k) + (if WeekOf(txns[n]) in weeks[k..] then txns[n].amount else 0.0)
    decreases |weeks| - k
  {
    var n := |txns| - 1;
    if k < |weeks| {
      NetFromSnoc(weeks, txns, k + 1);
      assert txns[..n + 1] == txns;
      SnocFacts(txns, n, weeks[k]);
      assert weeks[k..] == [weeks[k]] + weeks[k + 1..];
      assert weeks[k] !in weeks[k + 1..];
    }
  }

  lemma {:induction false} NetFromTotal(weeks: seq<int>, txns: seq<Txn>)
    requires forall i, j :: 0 <= i < j < |weeks| ==> weeks[i] != weeks[j]
    requires forall t :: t in txns ==> WeekOf(t) in weeks
    ensures NetFrom(weeks, txns, 0) == Sum((t: Txn) => t.amount, txns)
  {
    if txns == [] {
      NoNet(weeks, 0);
    } else {
      assert txns[|txns| - 1] in txns;
      NetFromTotal(weeks, txns[..|txns| - 1]);
      NetFromSnoc(weeks, txns, 0);
    }
  }

  lemma {:induction false} NoNet(weeks: seq<int>, k: nat)
    requires k <= |weeks|
    ensures NetFrom(weeks, [], k) == 0.0
    decreases |weeks| - k
  {
    if k < |weeks| { NoNet(weeks, k + 1); }
  }

  lemma WeeksAre(txns: seq<Txn>)
    ensures forall i, j :: 0 <= i < j < |Weeks(txns)| ==> Weeks(txns)[i] < Weeks(txns)[j]
    ensures forall t :: t in txns ==> WeekOf(t) in Weeks(txns)
    ensures txns != [] ==> Weeks(txns) != []
  {
    SortedKeysIs(Map(WeekOf, txns));
    MapMembers(WeekOf, txns);
    if txns != [] {
      assert txns[0] in txns;
    }
  }

  /** Nothing is lost in the walk: the cash before the first active week plus every recent
      amount is today's balance. */
  lemma CashAddsUp(balance: real, txns: seq<Txn>, today: int)
    requires balance != 0.0 && Recent(txns, today) != []
    ensures var (history, _) := CashHistory(Some(balance), txns, today);
            var recent := Recent(txns, today);
            && history != []
            && history[|history| - 1].1 == balance
            && history[0].1 - Net(recent, history[0].0) + Sum((t: Txn) => t.amount, recent) == balance
  {
    var recent := Recent(txns, today);
    WeeksAre(recent);
    NetFromTotal(Weeks(recent), recent);
  }

  /** The loader and the detector together: with at least two active weeks, the finding depends
      only on the balance and on the net flow of the latest active week. */
  lemma CashDropIff(balance: Option<real>, txns: seq<Txn>, today: int)
    ensures var (history, drops) := CashHistory(balance, txns, today);
            var out := DetectCashDrop(history, drops);
            var weeks := Weeks(Recent(txns, today));
            var net := if weeks == [] then 0.0 else Net(Recent(txns, today), weeks[|weeks| - 1]);
            && (out != [] <==> |weeks| >= 2 && balance.Some? && balance.value != 0.0
                               && net < 0.0 && balance.value <= 3.0 * -net)
            && |out| <= 1
            && (out != [] ==> (out[0].severity == Critical <==> balance.value <= -net))
  {
    var recent := Recent(txns, today);
    var weeks := Weeks(recent);
    if |weeks| >= 2 && balance.Some? && balance.value != 0.0 {
      var net := Net(recent, weeks[|weeks| - 1]);
      var (history, drops) := CashHistory(balance, txns, today);
      LastTwoWeeks(weeks, recent, balance.value);
      DropIff(history, drops, balance.value, net);
    }
  }

  lemma LastTwoWeeks(weeks: seq<int>, txns: seq<Txn>, balance: real)
    requires |weeks| >= 2
    ensures var (history, n) := (EndingCash(weeks, txns, balance), |weeks|);
      history[n - 1].1 == balance && history[n - 2].1 == balance - Net(txns, weeks[n - 1])
  {
  }

  /** The detector on the last two weeks of cash, the later one `net` more than the earlier. */
  lemma DropIff(history: seq<(int, real)>, drops: seq<(string, real)>, cash: real, net: real)
    requires |history| >= 2 && history[|history| - 1].1 == cash && history[|history| - 2].1 == cash - net
    ensures var out := DetectCashDrop(history, drops);
      && (out != [] <==> net < 0.0 && cash <= 3.0 * -net)
      && |out| <= 1
      && (out != [] ==> (out[0].severity == Critical <==> cash <= -net))
  {
    if cash - net > 0.0 {
      RatioIff(-net, cash - net);
    }
  }

  lemma RatioIff(drop: real, prev: real)
    requires prev > 0.0
    ensures drop / prev < 0.25 <==> 4.0 * drop < prev
    ensures drop / prev >= 0.5 <==> 2.0 * drop >= prev
  {
    var r := drop / prev;
    assert drop == r * prev;
    Scale(r, 0.25, prev);
    Scale(0.25, r, prev);
    Scale(r, 0.5, prev);
    Scale(0.5, r, prev);
  }

  lemma Scale(x: real, y: real, p: real)
    requires p > 0.0
    ensures x < y ==> x * p < y * p
    ensures x <= y ==> x * p <= y * p
  {
  }

  // ----- Vendor history -----

  predicate IsSpace(c: char) { c == ' ' || '\t' <= c <= '\r' || '\U{1c}' <= c <= '\U{1f}' }

  function TrimLeft(s: string): string {
    if s != "" && IsSpace(s[0]) then TrimLeft(s[1..]) else s
  }

  function Trim(s: string): string
  {
    TrimRight(TrimLeft(s))
  }

  function TrimRight(s: string): string {
    if s != "" && IsSpace(s[|s| - 1]) then TrimRight(s[..|s| - 1]) else s
  }

  function Vendor(t: Txn): string {
    Trim(if t.canonical != "" then t.canonical else if t.raw != "" then t.raw else "Unknown")
  }

  /** Outflows of about thirteen months whose vendor has a name. */
  function Spending(txns: seq<Txn>, today: int): seq<Txn> {
    Filter((t: Txn) => t.date >= today - 400 && t.amount < 0.0 && Vendor(t) != "", txns)
  }

  /** `month` is the first day of the month of a day. */
  function Months(rows: seq<Txn>, v: string, month: int -> int): seq<int> {
    Map((t: Txn) => month(t.date), Filter((t: Txn) => Vendor(t) == v, rows))
  }

  function Spend(rows: seq<Txn>, v: string, m: int, month: int -> int): real {
    Sum((t: Txn) => if Vendor(t) == v && month(t.date) == m then -t.amount else 0.0, rows)
  }

  function Ids(rows: seq<Txn>, v: string, m: int, month: int -> int): seq<string> {
    Map((t: Txn) => t.id, Filter((t: Txn) => Vendor(t) == v && month(t.date) == m, rows))
  }

  function HistoryOf(rows: seq<Txn>, v: string, latest: int, month: int -> int): VendorHistory {
    VendorHistory(v, Map(m => (m, Spend(rows, v, m, month)), SortedKeys(Months(rows, v, month))),
                  Ids(rows, v, latest, month))
  }

  function VendorHistories(txns: seq<Txn>, today: int, month: int -> int): seq<VendorHistory> {
    var rows := Spending(txns, today);
    Map(v => HistoryOf(rows, v, month(today), month), Distinct(Map(Vendor, rows)))
  }

  lemma VendorSnoc(rows: seq<Txn>, i: nat, v: string, m: int, month: int -> int)
    requires i < |rows|
    ensures var hit := Vendor(rows[i]) == v;
            && Months(rows[..i + 1], v, month)
               == Months(rows[..i], v, month) + (if hit then [month(rows[i].date)] else [])
            && Spend(rows[..i + 1], v, m, month)
               == Spend(rows[..i], v, m, month)
                  + (if hit && month(rows[i].date) == m then -rows[i].amount else 0.0)
            && Ids(rows[..i + 1], v, m, month)
               == Ids(rows[..i], v, m, month) + (if hit && month(rows[i].date) == m then [rows[i].id] else [])
  {
    assert rows[..i + 1][..i] == rows[..i];
    MapFilterSnoc((t: Txn) => month(t.date), (t: Txn) => Vendor(t) == v, rows, i);
    MapFilterSnoc((t: Txn) => t.id, (t: Txn) => Vendor(t) == v && month(t.date) == m, rows, i);
  }

  type Cell = (real, seq<string>)

  /** `by_vendor`: the vendors in order, the months of each in order, and one cell for each. */
  datatype Buckets = Buckets(vendors: seq<string>, months: map<string, seq<int>>, cells: map<(string, int), Cell>)

  /** The cell of `(v, m)` holds the spend and the ids, or is missing if the month is. */
  ghost predicate Holds(b: Buckets, v: string, m: int, latest: int, months: seq<int>, spend: real, ids: seq<string>) {
    if m in months
    then (v, m) in b.cells && b.cells[(v, m)] == (spend, if m == latest then ids else [])
    else (v, m) !in b.cells && spend == 0.0 && ids == []
  }

  ghost predicate CellOk(rows: seq<Txn>, latest: int, month: int -> int, b: Buckets, v: string, m: int) {
    Holds(b, v, m, latest, Months(rows, v, month), Spend(rows, v, m, month), Ids(rows, v, m, month))
  }

  ghost predicate BucketsOk(rows: seq<Txn>, latest: int, month: int -> int, b: Buckets) {
    && b.vendors == Distinct(Map(Vendor, rows))
    && (forall v :: v in b.months <==> v in b.vendors)
    && (forall v :: v in b.months ==> b.months[v] == Distinct(Months(rows, v, month)))
    && (forall v, m :: CellOk(rows, latest, month, b, v, m))
  }

  function AddTo(b: Buckets, r: Txn, latest: int, month: int -> int): Buckets {
    AddCell(b, Vendor(r), month(r.date), -r.amount, r.id, latest)
  }

  function AddCell(b: Buckets, v: string, m: int, spent: real, id: string, latest: int): Buckets {
    var known: seq<int> := if v in b.months then b.months[v] else [];
    var cell: Cell := if (v, m) in b.cells then b.cells[(v, m)] else (0.0, []);
    Buckets(
      if v in b.vendors then b.vendors else b.vendors + [v],
      b.months[v := if m in known then known else known + [m]],
      b.cells[(v, m) := (cell.0 + spent, cell.1 + (if m == latest then [id] else []))])
  }

  lemma {:induction false} NoRowsNoMonths(rows: seq<Txn>, v: string, month: int -> int)
    requires forall t :: t in rows ==> Vendor(t) != v
    ensures Months(rows, v, month) == []
  {
    if rows != [] {
      var n := |rows| - 1;
      assert rows[..n + 1] == rows && rows[n] in rows;
      VendorSnoc(rows, n, v, 0, month);
      NoRowsNoMonths(rows[..n], v, month);
    }
  }

  lemma MonthsOfNewVendor(rows: seq<Txn>, v: string, month: int -> int)
    requires v !in Distinct(Map(Vendor, rows))
    ensures Months(rows, v, month) == []
  {
    DistinctIs(Map(Vendor, rows));
    MapMembers(Vendor, rows);
    NoRowsNoMonths(rows, v, month);
  }

  lemma HoldsAfter(
      b: Buckets, rv: string, rm: int, spent: real, id: string, v: string, m: int, latest: int,
      months: seq<int>, spend: real, ids: seq<string>, months': seq<int>, spend': real, ids': seq<string>)
    requires Holds(b, v, m, latest, months, spend, ids)
    requires months' == months + (if rv == v then [rm] else [])
    requires spend' == spend + (if rv == v && rm == m then spent else 0.0)
    requires ids' == ids + (if rv == v && rm == m then [id] else [])
    ensures Holds(AddCell(b, rv, rm, spent, id, latest), v, m, latest, months', spend', ids')
  {
    if rv == v && rm == m {
      assert months'[|months|] == m;
      var none: seq<string> := [];
      assert none + [] == none;
    } else {
      assert ids + [] == ids;
      assert m in months' <==> m in months;
      assert (rv, rm) != (v, m);
    }
  }

  lemma CellStep(rows: seq<Txn>, i: nat, latest: int, month: int -> int, b: Buckets, v: string, m: int)
    requires i < |rows| && CellOk(rows[..i], latest, month, b, v, m)
    ensures CellOk(rows[..i + 1], latest, month, AddTo(b, rows[i], latest, month), v, m)
  {
    var r := rows[i];
    VendorSnoc(rows, i, v, m, month);
    HoldsAfter(
      b, Vendor(r), month(r.date), -r.amount, r.id, v, m, latest,
      Months(rows[..i], v, month), Spend(rows[..i], v, m, month), Ids(rows[..i], v, m, month),
      Months(rows[..i + 1], v, month), Spend(rows[..i + 1], v, m, month), Ids(rows[..i + 1], v, m, month));
  }

  lemma MonthsStep(rows: seq<Txn>, i: nat, latest: int, month: int -> int, b: Buckets, v: string)
    requires i < |rows|
    requires v in b.months ==> b.months[v] == Distinct(Months(rows[..i], v, month))
    requires v !in b.months ==> Months(rows[..i], v, month) == []
    requires v in b.months || v == Vendor(rows[i])
    ensures AddTo(b, rows[i], latest, month).months[v] == Distinct(Months(rows[..i + 1], v, month))
  {
    VendorSnoc(rows, i, v, 0, month);
    var before := Months(rows[..i], v, month);
    if Vendor(rows[i]) == v {
      assert (before + [month(rows[i].date)])[..|before|] == before;
    } else {
      assert before + [] == before;
    }
  }

  lemma BucketsStep(rows: seq<Txn>, i: nat, latest: int, month: int -> int, b: Buckets)
    requires i < |rows| && BucketsOk(rows[..i], latest, month, b)
    ensures BucketsOk(rows[..i + 1], latest, month, AddTo(b, rows[i], latest, month))
  {
    var b' := AddTo(b, rows[i], latest, month);
    assert Map(Vendor, rows[..i + 1])[..i] == Map(Vendor, rows[..i]);
    forall v | v in b'.months ensures b'.months[v] == Distinct(Months(rows[..i + 1], v, month)) {
      if v !in b.months {
        MonthsOfNewVendor(rows[..i], v, month);
      }
      MonthsStep(rows, i, latest, month, b, v);
    }
    var after := rows[..i + 1];
    forall v, m ensures CellOk(after, latest, month, b', v, m) {
      CellStep(rows, i, latest, month, b, v, m);
    }
  }

  predicate Readable(b: Buckets, v: string) {
    v in b.months && forall m :: m in b.months[v] ==> (v, m) in b.cells
  }

  /** The history of one vendor, read off the buckets. */
  function Read(b: Buckets, v: string, latest: int): VendorHistory
    requires Readable(b, v)
  {
    var months := Sort((x: int, y: int) => x < y, b.months[v]);
    VendorHistory(
      v,
      seq(|months|, i requires 0 <= i < |months| =>
        (months[i], if (v, months[i]) in b.cells then b.cells[(v, months[i])].0 else 0.0)),
      if (v, latest) in b.cells then b.cells[(v, latest)].1 else [])
  }

  lemma ReadIs(rows: seq<Txn>, latest: int, month: int -> int, b: Buckets, v: string)
    requires BucketsOk(rows, latest, month, b) && v in b.months
    ensures Readable(b, v)
    ensures Read(b, v, latest) == HistoryOf(rows, v, latest, month)
  {
    DistinctIs(Months(rows, v, month));
    SortedKeysIs(Months(rows, v, month));
    forall m | m in b.months[v] ensures (v, m) in b.cells {
      assert CellOk(rows, latest, month, b, v, m);
    }
    assert CellOk(rows, latest, month, b, v, latest);
    var months := SortedKeys(Months(rows, v, month));
    forall i | 0 <= i < |months| ensures (v, months[i]) in b.cells
      && b.cells[(v, months[i])].0 == Spend(rows, v, months[i], month)
    {
      assert months[i] in months;
      assert CellOk(rows, latest, month, b, v, months[i]);
    }
  }

  method LoadVendorHistory(txns: seq<Txn>, today: int, month: int -> int) returns (histories: seq<VendorHistory>)
    ensures histories == VendorHistories(txns, today, month)
  {
    var latest := month(today);
    var rows := Spending(txns, today);
    var b := Buckets([], map[], map[]);
    assert forall v, m :: CellOk([], latest, month, b, v, m);
    for i := 0 to |rows|
      invariant BucketsOk(rows[..i], latest, month, b)
    {
      BucketsStep(rows, i, latest, month, b);
      b := AddTo(b, rows[i], latest, month);
    }
    assert rows[..|rows|] == rows;
    forall v | v in b.vendors ensures Readable(b, v) && Read(b, v, latest) == HistoryOf(rows, v, latest, month) {
      ReadIs(rows, latest, month, b, v);
    }
    histories := ReadAll(b, latest);
    forall k | 0 <= k < |b.vendors| ensures histories[k] == HistoryOf(rows, b.vendors[k], latest, month) {
      assert b.vendors[k] in b.vendors;
    }
  }

  method ReadAll(b: Buckets, latest: int) returns (histories: seq<VendorHistory>)
    requires forall v :: v in b.vendors ==> Readable(b, v)
    ensures |histories| == |b.vendors|
    ensures forall k :: 0 <= k < |histories|
                    ==> Readable(b, b.vendors[k]) && histories[k] == Read(b, b.vendors[k], latest)
  {
    histories := [];
    for i := 0 to |b.vendors|
      invariant |histories| == i
      invariant forall k :: 0 <= k < i ==> Readable(b, b.vendors[k]) && histories[k] == Read(b, b.vendors[k], latest)
    {
      assert b.vendors[i] in b.vendors;
      histories := histories + [Read(b, b.vendors[i], latest)];
    }
  }
}

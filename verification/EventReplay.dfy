/** The outbox: publishing events, and reading them back from a cursor. */
module EventReplay {
  import opened Ordering
  import opened EventSeq

  datatype Event = Event(seqNo: string, org: nat, typ: string, payload: string)

  const PAGE_SIZE: nat := 500

  predicate Before(a: Event, b: Event) { StrLess(a.seqNo, b.seqNo) }

  lemma BeforeIsStrictWeak()
    ensures StrictWeak(Before)
  {
    StrLessIsTotal();
  }

  ghost predicate DistinctSeqs(table: seq<Event>) {
    forall i, j :: 0 <= i < j < |table| ==> table[i].seqNo != table[j].seqNo
  }

  /** The rows of `org` after the cursor; an empty cursor means from the start. */
  predicate Wanted(e: Event, org: nat, since: string) {
    e.org == org && (since == "" || StrLess(since, e.seqNo))
  }

  /** All rows of `org` after the cursor, in order. */
  function After(table: seq<Event>, org: nat, since: string): seq<Event> {
    Sort(Before, Filter((e: Event) => Wanted(e, org, since), table))
  }

  /** One answer of `GET /events/replay`. */
  function Replay(table: seq<Event>, org: nat, since: string): seq<Event> {
    Take(PAGE_SIZE, After(table, org, since))
  }

  lemma {:induction false} FilterKeepsDistinct(p: Event -> bool, table: seq<Event>)
    requires DistinctSeqs(table)
    ensures DistinctSeqs(Filter(p, table))
  {
    if table != [] {
      FilterKeepsDistinct(p, table[1..]);
      FilterMembers(p, table[1..]);
      forall e | e in Filter(p, table[1..]) ensures e.seqNo != table[0].seqNo {
        assert e in table[1..];
      }
    }
  }

  lemma AfterIs(table: seq<Event>, org: nat, since: string)
    requires DistinctSeqs(table)
    ensures Ascending(Before, After(table, org, since))
    ensures forall e :: e in After(table, org, since) <==> e in table && Wanted(e, org, since)
  {
    var p := (e: Event) => Wanted(e, org, since);
    var rows, sorted := Filter(p, table), After(table, org, since);
    BeforeIsStrictWeak();
    FilterKeepsDistinct(p, table);
    FilterMembers(p, table);
    SortSorts(Before, rows);
    forall i, j | 0 <= i < j < |sorted| ensures Before(sorted[i], sorted[j]) {
      DistinctStays(rows, sorted, i, j);
      assert sorted[i] in rows && sorted[j] in rows;
      StrLessConnected(sorted[i].seqNo, sorted[j].seqNo);
    }
  }

  lemma ReplayIs(table: seq<Event>, org: nat, since: string)
    requires DistinctSeqs(table)
    ensures Ascending(Before, Replay(table, org, since))
    ensures forall e :: e in Replay(table, org, since) ==> e in table && Wanted(e, org, since)
  {
    AfterIs(table, org, since);
    forall e | e in Replay(table, org, since) ensures e in table && Wanted(e, org, since) {
      assert e in After(table, org, since);
    }
  }

  /** In an ascending sequence, what comes after the `k`-th element is what is after it in order. */
  lemma TailIsAfter(all: seq<Event>, k: nat, e: Event)
    requires Ascending(Before, all) && 0 < k <= |all|
    ensures e in all[k..] <==> e in all && Before(all[k - 1], e)
  {
    if e in all[k..] {
      var i :| 0 <= i < |all[k..]| && all[k..][i] == e;
      assert e == all[k + i] && Before(all[k - 1], all[k + i]);
    }
    if e in all && Before(all[k - 1], e) {
      var i :| 0 <= i < |all| && all[i] == e;
      StrLessConnected(all[i].seqNo, all[k - 1].seqNo);
      assert i >= k;
      assert e == all[k..][i - k];
    }
  }

  lemma WantedLater(e: Event, org: nat, since: string, cursor: Event)
    requires Wanted(cursor, org, since) && cursor.seqNo != ""
    ensures Wanted(e, org, cursor.seqNo) <==> Wanted(e, org, since) && Before(cursor, e)
  {
    if since != "" && StrLess(cursor.seqNo, e.seqNo) {
      StrLessTransitive(since, cursor.seqNo, e.seqNo);
    }
  }

  /** Asking again from the last row received leaves exactly the rows not yet received. */
  lemma AfterFromLast(table: seq<Event>, org: nat, since: string, k: nat)
    requires DistinctSeqs(table)
    requires forall e :: e in table ==> e.seqNo != ""
    requires 0 < k <= |After(table, org, since)|
    ensures After(table, org, After(table, org, since)[k - 1].seqNo) == After(table, org, since)[k..]
  {
    var all := After(table, org, since);
    var cursor := all[k - 1];
    var rest := After(table, org, cursor.seqNo);
    AfterIs(table, org, since);
    AfterIs(table, org, cursor.seqNo);
    assert cursor in all;
    forall e ensures e in rest <==> e in all[k..] {
      TailIsAfter(all, k, e);
      WantedLater(e, org, since, cursor);
    }
    BeforeIsStrictWeak();
    AscendingUnique(Before, rest, all[k..]);
  }

  /** One more page, after the first `n` rows. */
  lemma PageStep(table: seq<Event>, org: nat, since: string, cursor: string, n: nat)
    requires DistinctSeqs(table) && forall e :: e in table ==> e.seqNo != ""
    requires n <= |After(table, org, since)| && After(table, org, cursor) == After(table, org, since)[n..]
    requires Replay(table, org, cursor) != []
    ensures var all, page := After(table, org, since), Replay(table, org, cursor);
      && n + |page| <= |all| && all[..n] + page == all[..n + |page|]
      && After(table, org, page[|page| - 1].seqNo) == all[n + |page|..]
  {
    var all, page := After(table, org, since), Replay(table, org, cursor);
    assert page[|page| - 1] == all[n + |page| - 1];
    AfterFromLast(table, org, since, n + |page|);
  }

  /** A client that pages: each request passes back the last `seq` received, until a page is empty. */
  method PageThrough(table: seq<Event>, org: nat, since: string) returns (rows: seq<Event>)
    requires DistinctSeqs(table) && forall e :: e in table ==> e.seqNo != ""
    ensures rows == After(table, org, since)
  {
    var cursor := since;
    rows := [];
    ghost var all := After(table, org, since);
    var page := Replay(table, org, cursor);
    while page != []
      invariant |rows| <= |all| && rows == all[..|rows|]
      invariant After(table, org, cursor) == all[|rows|..]
      invariant page == Replay(table, org, cursor)
      decreases |all| - |rows|
    {
      PageStep(table, org, since, cursor, |rows|);
      rows := rows + page;
      cursor := page[|page| - 1].seqNo;
      page := Replay(table, org, cursor);
    }
  }

  /** Paging returns each row after the cursor exactly once, in order, and nothing else. */
  lemma PagingIsComplete(table: seq<Event>, org: nat, since: string, rows: seq<Event>)
    requires DistinctSeqs(table) && rows == After(table, org, since)
    ensures Ascending(Before, rows)
    ensures forall e :: multiset(rows)[e] == if Wanted(e, org, since) then multiset(table)[e] else 0
  {
    var p := (e: Event) => Wanted(e, org, since);
    AfterIs(table, org, since);
    BeforeIsStrictWeak();
    SortSorts(Before, Filter(p, table));
    forall e ensures multiset(rows)[e] == if Wanted(e, org, since) then multiset(table)[e] else 0 {
      FilterCount(p, table, e);
    }
  }

  // ----- Publishing -----

  /** A sequence string that a publisher at or before this clock and counter has handed out. */
  ghost predicate Issued(s: string, now: nat, counter: nat) {
    exists m: nat, c: nat :: m <= now && c < counter && s == SeqOf(m, c)
  }

  ghost predicate AllIssued(outbox: seq<Event>, now: nat, counter: nat) {
    forall i :: 0 <= i < |outbox| ==> Issued(outbox[i].seqNo, now, counter)
  }

  lemma SeqIsNew(s: string, now: nat, counter: nat, later: nat)
    requires Issued(s, now, counter) && now <= later && InRange(later, counter)
    ensures StrLess(s, SeqOf(later, counter))
    ensures s != ""
  {
    var m: nat, c: nat :| m <= now && c < counter && s == SeqOf(m, c);
    SeqOrder(m, c, later, counter);
  }

  lemma OutboxGrows(outbox: seq<Event>, e: Event, now: nat, counter: nat, later: nat)
    requires AllIssued(outbox, now, counter) && Ascending(Before, outbox)
    requires now <= later && InRange(later, counter) && e.seqNo == SeqOf(later, counter)
    ensures AllIssued(outbox + [e], later, counter + 1) && Ascending(Before, outbox + [e])
  {
    var grown := outbox + [e];
    forall i | 0 <= i < |grown| ensures Issued(grown[i].seqNo, later, counter + 1) {
      if i < |outbox| {
        var m: nat, c: nat :| m <= now && c < counter && outbox[i].seqNo == SeqOf(m, c);
        assert grown[i].seqNo == SeqOf(m, c);
      } else {
        assert grown[i].seqNo == SeqOf(later, counter);
      }
    }
    forall i | 0 <= i < |outbox| ensures Before(outbox[i], e) {
      SeqIsNew(outbox[i].seqNo, now, counter, later);
    }
  }

  /** The process that publishes: a module-level counter, the table it writes and the channel. */
  class Publisher {
    var counter: nat
    var outbox: seq<Event>
    var channel: seq<Event>
    ghost var clock: nat

    ghost predicate Valid() reads this {
      AllIssued(outbox, clock, counter) && Ascending(Before, outbox)
    }

    constructor ()
      ensures Valid() && counter == 0 && outbox == [] && channel == []
    {
      counter, outbox, channel, clock := 0, [], [], 0;
    }

    method NextSeq(millis: nat) returns (s: string)
      modifies this`counter
      ensures s == SeqOf(millis, old(counter)) && counter == old(counter) + 1
    {
      s := SeqOf(millis, counter);
      counter := counter + 1;
    }

    /** The row first, then the channel; the row stays when the channel is down. */
    method PublishEvent(millis: nat, org: nat, typ: string, payload: string, channelUp: bool) returns (s: string)
      requires Valid() && clock <= millis && InRange(millis, counter)
      modifies this
      ensures Valid() && clock == millis
      ensures outbox == old(outbox) + [Event(s, org, typ, payload)]
      ensures channel == old(channel) + if channelUp then [Event(s, org, typ, payload)] else []
      ensures forall e :: e in old(outbox) ==> StrLess(e.seqNo, s)
    {
      s := NextSeq(millis);
      var row := Event(s, org, typ, payload);
      OutboxGrows(outbox, row, clock, counter - 1, millis);
      forall e | e in outbox ensures StrLess(e.seqNo, s) {
        SeqIsNew(e.seqNo, clock, counter - 1, millis);
      }
      clock := millis;
      outbox := outbox + [row];
      if channelUp {
        channel := channel + [row];
      }
    }
  }
}

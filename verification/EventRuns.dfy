/** One publisher, one client and the network between them, over every schedule. A `connect` that
    starts while another is still waiting for its replay is not part of a schedule. */
module EventRuns {
  import opened Base
  import opened Ordering
  import opened EventSeq
  import opened EventReplay
  import opened EventClient

  /** The replay request of the `connect` in progress. */
  datatype Request = NoCall | Fetching(since: string) | Answered(rows: seq<Event>)

  /** The stream: opening until the server has subscribed, then messages on their way. */
  datatype Link = Down | Opening | Up(queue: seq<Event>)

  /** `outbox` in order of publication; `visible` are the rows whose transactions have committed. */
  datatype World = World(
    now: nat, counter: nat, outbox: seq<Event>, visible: set<Event>,
    org: nat, client: Client, call: Request, link: Link)

  datatype Action =
    | Tick(millis: nat)
    | Publish(to: nat, typ: string, payload: string, channelUp: bool)
    | Commit(row: nat)
    | Connect
    | TimerFires(id: nat)
    | ServerAnswers
    | ReplayFails
    | ReplayArrives
    | Subscribed
    | Deliver
    | Error
    | Disconnect

  function Start(now: nat, org: nat): World {
    World(now, 0, [], {}, org, NEW, NoCall, Down)
  }

  function Published(w: World, a: Action): Event
    requires a.Publish?
  {
    Event(SeqOf(w.now, w.counter), a.to, a.typ, a.payload)
  }

  function Connecting(w: World): World {
    if w.call != NoCall then w
    else match Begin(w.client)
      case AlreadyOpen => w
      case AsksReplay(since) => w.(call := Fetching(since))
      case Opens => w.(client := Attach(w.client), link := Opening)
  }

  /** An action that is not possible changes nothing. */
  function Next(w: World, a: Action): World {
    match a
    case Tick(millis) => w.(now := w.now + millis)
    case Publish(to, _, _, channelUp) =>
      var e := Published(w, a);
      w.(counter := w.counter + 1, outbox := w.outbox + [e],
         link := if w.link.Up? && channelUp && to == w.org then Up(w.link.queue + [e]) else w.link)
    case Commit(row) => if row < |w.outbox| then w.(visible := w.visible + {w.outbox[row]}) else w
    case Connect => Connecting(w)
    case TimerFires(id) =>
      if id in w.client.timeouts && w.call == NoCall then Connecting(w.(client := Fire(w.client, id))) else w
    case ServerAnswers =>
      if w.call.Fetching? then w.(call := Answered(Replay(Table(w), w.org, w.call.since))) else w
    case ReplayFails =>
      if w.call != NoCall then w.(call := NoCall, client := Resume(w.client, None), link := Opening) else w
    case ReplayArrives =>
      if w.call.Answered?
      then w.(call := NoCall, client := Resume(w.client, Some(w.call.rows)), link := Opening) else w
    case Subscribed => if w.link.Opening? then w.(link := Up([])) else w
    case Deliver =>
      if w.link.Up? && w.link.queue != []
      then w.(client := Dispatch(w.client, w.link.queue[0]), link := Up(w.link.queue[1..])) else w
    case Error => if w.client.open then w.(client := Fail(w.client), link := Down) else w
    case Disconnect => w.(client := Close(w.client), link := Down)
  }

  function Table(w: World): seq<Event> { Filter((e: Event) => e in w.visible, w.outbox) }

  function Run(w: World, schedule: seq<Action>): World
    decreases |schedule|
  {
    if schedule == [] then w else Run(Next(w, schedule[0]), schedule[1..])
  }

  // ----- Order -----

  /** What the client will dispatch without another request. */
  function Ahead(w: World): seq<Event> {
    if w.call.Answered? then w.call.rows else if w.link.Up? then w.link.queue else []
  }

  function LastSeq(log: seq<Event>): string { if log == [] then "" else log[|log| - 1].seqNo }

  ghost predicate Ours(w: World, s: seq<Event>) {
    forall e :: e in s ==> e in w.outbox && e.org == w.org
  }

  ghost predicate Inv(w: World) {
    && AllIssued(w.outbox, w.now, w.counter) && Ascending(Before, w.outbox)
    && (w.client.open <==> w.link != Down)
    && (w.call != NoCall ==> w.link == Down && w.client.log != [])
    && w.client.lastSeq == LastSeq(w.client.log)
    && (w.call.Fetching? ==> w.call.since == w.client.lastSeq)
    && Ours(w, w.client.log + Ahead(w)) && Ascending(Before, w.client.log + Ahead(w))
  }

  ghost predicate Fits(w: World) { InRange(w.now, w.counter) }

  lemma OutboxIsDistinct(w: World)
    requires Inv(w) && Fits(w)
    ensures DistinctSeqs(w.outbox) && forall e :: e in w.outbox ==> e.seqNo != ""
  {
    forall i, j | 0 <= i < j < |w.outbox| ensures w.outbox[i].seqNo != w.outbox[j].seqNo {
      StrLessConnected(w.outbox[i].seqNo, w.outbox[j].seqNo);
      assert Before(w.outbox[i], w.outbox[j]);
    }
    forall e | e in w.outbox ensures e.seqNo != "" {
      SeqIsNew(e.seqNo, w.now, w.counter, w.now);
    }
  }

  lemma AscendingConcat(a: seq<Event>, b: seq<Event>)
    requires Ascending(Before, a) && Ascending(Before, b)
    requires a != [] ==> forall e :: e in b ==> Before(a[|a| - 1], e)
    ensures Ascending(Before, a + b)
  {
    var s := a + b;
    forall i, j | 0 <= i < j < |s| ensures Before(s[i], s[j]) {
      if i < |a| <= j {
        assert s[j] in b && Before(a[|a| - 1], s[j]);
        if i < |a| - 1 {
          StrLessTransitive(a[i].seqNo, a[|a| - 1].seqNo, s[j].seqNo);
        }
      }
    }
  }

  lemma TableIs(w: World)
    requires Inv(w) && Fits(w)
    ensures DistinctSeqs(Table(w)) && forall e :: e in Table(w) <==> e in w.outbox && e in w.visible
  {
    OutboxIsDistinct(w);
    FilterKeepsDistinct((e: Event) => e in w.visible, w.outbox);
    FilterMembers((e: Event) => e in w.visible, w.outbox);
  }

  lemma AnswerIsAhead(w: World, rows: seq<Event>)
    requires Inv(w) && w.call.Fetching? && w.client.lastSeq != ""
    requires Ascending(Before, rows) && forall e :: e in rows ==> Wanted(e, w.org, w.call.since)
    ensures Ascending(Before, w.client.log + rows)
  {
    var log := w.client.log;
    assert log + Ahead(w) == log;
    forall e | e in rows ensures Before(log[|log| - 1], e) {
      assert Wanted(e, w.org, w.call.since);
    }
    AscendingConcat(log, rows);
  }

  lemma AnswerKeepsInv(w: World)
    requires Inv(w) && Fits(w) && w.call.Fetching?
    ensures Inv(Next(w, ServerAnswers))
  {
    var log, rows := w.client.log, Replay(Table(w), w.org, w.call.since);
    var w' := Next(w, ServerAnswers);
    OutboxIsDistinct(w);
    TableIs(w);
    ReplayIs(Table(w), w.org, w.call.since);
    assert log + Ahead(w) == log && log[|log| - 1] in log;
    AnswerIsAhead(w, rows);
    forall e | e in w'.client.log + Ahead(w') ensures e in w'.outbox && e.org == w'.org {
      assert e in log || e in rows;
    }
  }

  lemma ArrivalKeepsInv(w: World)
    requires Inv(w) && Fits(w) && w.call.Answered?
    ensures Inv(Next(w, ReplayArrives))
  {
    var rows := w.call.rows;
    OutboxIsDistinct(w);
    forall e | e in rows ensures e.seqNo != "" {
      assert e in w.client.log + rows;
    }
    DispatchAllIs(w.client, rows);
    assert w.client.log + rows + [] == w.client.log + rows;
  }

  lemma PublishKeepsInv(w: World, a: Action)
    requires Inv(w) && Fits(w) && a.Publish?
    ensures Inv(Next(w, a))
  {
    var e := Published(w, a);
    var w' := Next(w, a);
    var s := w.client.log + Ahead(w);
    OutboxGrows(w.outbox, e, w.now, w.counter, w.now);
    forall x | x in s ensures Before(x, e) {
      SeqIsNew(x.seqNo, w.now, w.counter, w.now);
    }
    if w'.link != w.link {
      AscendingConcat(s, [e]);
      assert w'.client.log + Ahead(w') == s + [e];
    }
  }

  lemma DeliverMovesOne(w: World)
    requires Inv(w) && Fits(w) && w.link.Up? && w.link.queue != []
    ensures var w' := Next(w, Deliver);
      w'.client.log + Ahead(w') == w.client.log + Ahead(w) && w'.client.lastSeq == LastSeq(w'.client.log)
  {
  }

  /** What is dispatched and what is ahead may move, as long as their concatenation stays. */
  lemma SameConcatKeepsInv(w: World, w': World)
    requires Inv(w) && w'.outbox == w.outbox && w'.org == w.org
    requires AllIssued(w'.outbox, w'.now, w'.counter)
    requires w'.client.log + Ahead(w') == w.client.log + Ahead(w)
    requires w'.client.open <==> w'.link != Down
    requires w'.call != NoCall ==> w'.link == Down && w'.client.log != []
    requires w'.client.lastSeq == LastSeq(w'.client.log)
    requires w'.call.Fetching? ==> w'.call.since == w'.client.lastSeq
    ensures Inv(w')
  {
  }

  lemma TickKeepsInv(w: World, millis: nat)
    requires Inv(w)
    ensures Inv(Next(w, Tick(millis)))
  {
  }

  lemma ConnectingKeepsInv(w: World)
    requires Inv(w)
    ensures Inv(Connecting(w))
  {
  }

  /** Closing the stream drops what was on its way. */
  lemma DropKeepsInv(w: World, w': World)
    requires Inv(w) && w'.outbox == w.outbox && w'.org == w.org && w'.now == w.now && w'.counter == w.counter
    requires w'.client.log == w.client.log && w'.client.lastSeq == w.client.lastSeq
    requires w'.call == w.call || w'.call == NoCall
    requires !w'.client.open && w'.link == Down
    ensures Inv(w')
  {
    var log, s, s' := w.client.log, w.client.log + Ahead(w), w'.client.log + Ahead(w');
    assert s' == if w'.call.Answered? then s else s[..|log|];
    forall e | e in s' ensures e in w.outbox && e.org == w.org {
      assert e in s;
    }
    forall i, j | 0 <= i < j < |s'| ensures Before(s'[i], s'[j]) {
      assert s'[i] == s[i] && s'[j] == s[j];
    }
  }

  /** Each action keeps the invariant. */
  lemma NextKeepsInv(w: World, a: Action)
    requires Inv(w) && Fits(w)
    ensures Inv(Next(w, a))
  {
    var w' := Next(w, a);
    match a
    case Tick(millis) => TickKeepsInv(w, millis);
    case Publish(_, _, _, _) => PublishKeepsInv(w, a);
    case Commit(_) => SameConcatKeepsInv(w, w');
    case Connect => ConnectingKeepsInv(w);
    case TimerFires(id) =>
      SameConcatKeepsInv(w, w.(client := Fire(w.client, id)));
      ConnectingKeepsInv(w.(client := Fire(w.client, id)));
    case ServerAnswers => if w.call.Fetching? { AnswerKeepsInv(w); }
    case ReplayFails =>
      if w.call != NoCall {
        DropKeepsInv(w, w.(call := NoCall));
        SameConcatKeepsInv(w.(call := NoCall), w');
      }
    case ReplayArrives => if w.call.Answered? { ArrivalKeepsInv(w); }
    case Subscribed => SameConcatKeepsInv(w, w');
    case Deliver =>
      if w.link.Up? && w.link.queue != [] {
        DeliverMovesOne(w);
        SameConcatKeepsInv(w, w');
      }
    case Error => if w.client.open { DropKeepsInv(w, w'); }
    case Disconnect => DropKeepsInv(w, w');
  }
}

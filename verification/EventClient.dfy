/** The browser's event client: its fields, its callbacks and what it hands to the handlers. */
module EventClient {
  import opened Base
  import opened EventReplay

  /** `log` is every call of `dispatch`, in order; an empty `lastSeq` stands for none. `timer` is what the
      client remembers of its reconnect timer, `timeouts` what the window has pending. */
  datatype Client = Client(
    open: bool, lastSeq: string, timer: Option<nat>, timeouts: set<nat>, nextTimeout: nat, log: seq<Event>)

  const NEW: Client := Client(false, "", None, {}, 0, [])

  function Dispatch(c: Client, e: Event): Client {
    c.(lastSeq := if e.seqNo != "" then e.seqNo else c.lastSeq, log := c.log + [e])
  }

  function DispatchAll(c: Client, rows: seq<Event>): Client {
    if rows == [] then c else Dispatch(DispatchAll(c, rows[..|rows| - 1]), rows[|rows| - 1])
  }

  /** Replayed rows take the same path as live ones and move the cursor to the last of them. */
  lemma {:induction false} DispatchAllIs(c: Client, rows: seq<Event>)
    requires forall e :: e in rows ==> e.seqNo != ""
    ensures DispatchAll(c, rows)
         == c.(lastSeq := if rows == [] then c.lastSeq else rows[|rows| - 1].seqNo, log := c.log + rows)
  {
    if rows == [] {
      assert c.log + rows == c.log;
    } else {
      var front := rows[..|rows| - 1];
      DispatchAllIs(c, front);
      assert rows == front + [rows[|rows| - 1]];
      assert c.log + front + [rows[|rows| - 1]] == c.log + rows;
    }
  }

  /** What `connect` does before its first suspension. */
  datatype Begun = AlreadyOpen | AsksReplay(since: string) | Opens

  function Begin(c: Client): Begun {
    if c.open then AlreadyOpen else if c.lastSeq != "" then AsksReplay(c.lastSeq) else Opens
  }

  function Attach(c: Client): Client { c.(open := true) }

  function Connected(c: Client): Client { if Begin(c).Opens? then Attach(c) else c }

  /** An answer that failed or could not be read is ignored; the stream opens either way. */
  function Resume(c: Client, answer: Option<seq<Event>>): Client {
    match answer
    case None => Attach(c)
    case Some(rows) => Attach(DispatchAll(c, rows))
  }

  /** The stream is closed, and a reconnect is scheduled unless one is. */
  function Fail(c: Client): Client {
    if c.timer.Some? then c.(open := false)
    else c.(open := false, timer := Some(c.nextTimeout), timeouts := c.timeouts + {c.nextTimeout},
            nextTimeout := c.nextTimeout + 1)
  }

  function Close(c: Client): Client {
    if c.timer.None? then c.(open := false)
    else c.(open := false, timer := None, timeouts := c.timeouts - {c.timer.value})
  }

  /** The window runs a timeout: it is no longer pending, and the client forgets its timer. */
  function Fire(c: Client, id: nat): Client { c.(timer := None, timeouts := c.timeouts - {id}) }

  // ----- Every history of calls -----

  datatype Call =
    | Connects
    | Resumes(answer: Option<seq<Event>>)
    | Receives(e: Event)
    | Breaks
    | TimeoutRuns(id: nat)
    | Disconnects

  /** A closed stream delivers nothing, and a timeout that is not pending does not run. */
  function Handle(c: Client, call: Call): Client {
    match call
    case Connects => Connected(c)
    case Resumes(answer) => Resume(c, answer)
    case Receives(e) => if c.open then Dispatch(c, e) else c
    case Breaks => if c.open then Fail(c) else c
    case TimeoutRuns(id) => if id in c.timeouts then Connected(Fire(c, id)) else c
    case Disconnects => Close(c)
  }

  function HandleAll(c: Client, calls: seq<Call>): Client {
    if calls == [] then c else Handle(HandleAll(c, calls[..|calls| - 1]), calls[|calls| - 1])
  }

  /** The last sequence string among dispatched events. */
  function LastSeen(log: seq<Event>): string {
    if log == [] then ""
    else if log[|log| - 1].seqNo != "" then log[|log| - 1].seqNo else LastSeen(log[..|log| - 1])
  }

  /** The cursor is the last sequence string dispatched, and the window has the client's timer pending
      and no other timeout. */
  ghost predicate Sound(c: Client) {
    && c.lastSeq == LastSeen(c.log)
    && c.timeouts == (if c.timer.Some? then {c.timer.value} else {})
  }

  lemma DispatchKeepsSound(c: Client, e: Event)
    requires Sound(c)
    ensures Sound(Dispatch(c, e))
  {
    assert (c.log + [e])[..|c.log|] == c.log;
  }

  lemma {:induction false} DispatchAllKeepsSound(c: Client, rows: seq<Event>)
    requires Sound(c)
    ensures Sound(DispatchAll(c, rows))
  {
    if rows != [] {
      DispatchAllKeepsSound(c, rows[..|rows| - 1]);
      DispatchKeepsSound(DispatchAll(c, rows[..|rows| - 1]), rows[|rows| - 1]);
    }
  }

  lemma HandleKeepsSound(c: Client, call: Call)
    requires Sound(c)
    ensures Sound(Handle(c, call))
  {
    match call
    case Resumes(answer) => if answer.Some? { DispatchAllKeepsSound(c, answer.value); }
    case Receives(e) => DispatchKeepsSound(c, e);
    case _ =>
  }

  /** Over every history of connects, answers, messages, errors, timeouts and disconnects, the next replay
      is asked from the last sequence string dispatched, and at most one reconnect is pending. */
  lemma {:induction false} AlwaysSound(calls: seq<Call>)
    ensures var c := HandleAll(NEW, calls);
      && Sound(c) && |c.timeouts| <= 1
      && (Begin(c).AsksReplay? ==> Begin(c).since == LastSeen(c.log))
      && (Begin(c).Opens? ==> LastSeen(c.log) == "")
  {
    if calls != [] {
      AlwaysSound(calls[..|calls| - 1]);
      HandleKeepsSound(HandleAll(NEW, calls[..|calls| - 1]), calls[|calls| - 1]);
    }
  }

  lemma {:induction false} NothingHappensTo(c: Client, calls: seq<Call>)
    requires !c.open && c.timeouts == {}
    requires forall i :: 0 <= i < |calls| ==> !calls[i].Connects? && !calls[i].Resumes? && !calls[i].Disconnects?
    ensures HandleAll(c, calls) == c
  {
    if calls != [] {
      NothingHappensTo(c, calls[..|calls| - 1]);
    }
  }

  /** After `disconnect` nothing is dispatched and nothing reconnects, whatever the window and the stream do,
      until `connect` is called or a `connect` that was waiting for its replay resumes. */
  lemma SilentAfterDisconnect(before: seq<Call>, after: seq<Call>)
    requires forall i :: 0 <= i < |after| ==> !after[i].Connects? && !after[i].Resumes? && !after[i].Disconnects?
    ensures var c := HandleAll(NEW, before + [Disconnects]);
      !c.open && c.timeouts == {} && HandleAll(c, after) == c
  {
    AlwaysSound(before);
    assert (before + [Disconnects])[..|before|] == before;
    NothingHappensTo(HandleAll(NEW, before + [Disconnects]), after);
  }

  // ----- The client -----

  class RealtimeClient {
    var es: bool
    var lastSeq: string
    var reconnectTimer: Option<nat>
    var timeouts: set<nat>
    var nextTimeout: nat
    var log: seq<Event>

    function View(): Client reads this { Client(es, lastSeq, reconnectTimer, timeouts, nextTimeout, log) }

    constructor ()
      ensures View() == NEW
    {
      es, lastSeq, reconnectTimer, timeouts, nextTimeout, log := false, "", None, {}, 0, [];
    }

    method Connect() returns (begun: Begun)
      modifies this
      ensures begun == Begin(old(View())) && View() == Handle(old(View()), Connects)
    {
      if es {
        return AlreadyOpen;
      }
      if lastSeq != "" {
        return AsksReplay(lastSeq);
      }
      es := true;
      return Opens;
    }

    /** The callback of the reconnect timer: it forgets the timer before it connects. */
    method OnTimeout(id: nat) returns (begun: Begun)
      requires id in timeouts
      modifies this
      ensures begun == Begin(Fire(old(View()), id)) && View() == Handle(old(View()), TimeoutRuns(id))
    {
      timeouts := timeouts - {id};
      reconnectTimer := None;
      begun := Connect();
    }

    /** The rest of `connect`, once the replay request has been answered or has failed. */
    method AfterReplay(answer: Option<seq<Event>>)
      modifies this
      ensures View() == Handle(old(View()), Resumes(answer))
    {
      if answer.Some? {
        var rows := answer.value;
        ghost var was := View();
        for i := 0 to |rows|
          invariant View() == DispatchAll(was, rows[..i])
        {
          assert rows[..i + 1][..i] == rows[..i];
          DispatchEvent(rows[i]);
        }
        assert rows[..|rows|] == rows;
      }
      es := true;
    }

    method DispatchEvent(e: Event)
      modifies this
      ensures View() == Dispatch(old(View()), e)
    {
      if e.seqNo != "" {
        lastSeq := e.seqNo;
      }
      log := log + [e];
    }

    method OnMessage(e: Event)
      requires es
      modifies this
      ensures View() == Handle(old(View()), Receives(e))
    {
      DispatchEvent(e);
    }

    method OnError()
      requires es
      modifies this
      ensures View() == Handle(old(View()), Breaks)
    {
      es := false;
      ScheduleReconnect();
    }

    method ScheduleReconnect()
      requires !es
      modifies this
      ensures View() == Fail(old(View()))
    {
      if reconnectTimer.Some? {
        return;
      }
      reconnectTimer := Some(nextTimeout);
      timeouts := timeouts + {nextTimeout};
      nextTimeout := nextTimeout + 1;
    }

    method Disconnect()
      modifies this
      ensures View() == Handle(old(View()), Disconnects)
    {
      es := false;
      if reconnectTimer.Some? {
        timeouts := timeouts - {reconnectTimer.value};
        reconnectTimer := None;
      }
    }
  }
}

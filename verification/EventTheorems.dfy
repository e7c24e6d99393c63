/** What the event client's dispatch log is worth, over every schedule. */
module EventTheorems {
  import opened Base
  import opened Ordering
  import opened EventSeq
  import opened EventReplay
  import opened EventClient
  import opened EventRuns

  // ----- Order -----

  lemma NextOnlyAdds(w: World, a: Action)
    requires Inv(w) && Fits(w)
    ensures w.client.log <= Next(w, a).client.log && w.outbox <= Next(w, a).outbox
    ensures w.now <= Next(w, a).now && w.counter <= Next(w, a).counter && Next(w, a).org == w.org
  {
    if a == ReplayArrives && w.call.Answered? {
      OutboxIsDistinct(w);
      forall e | e in w.call.rows ensures e.seqNo != "" {
        assert e in w.client.log + Ahead(w);
      }
      DispatchAllIs(w.client, w.call.rows);
    }
  }

  lemma {:induction false} ClockOnlyAdvances(w: World, schedule: seq<Action>)
    ensures w.now <= Run(w, schedule).now && w.counter <= Run(w, schedule).counter
    decreases |schedule|
  {
    if schedule != [] {
      ClockOnlyAdvances(Next(w, schedule[0]), schedule[1..]);
    }
  }

  lemma InRangeBefore(now: nat, counter: nat, now': nat, counter': nat)
    requires now <= now' && counter <= counter' && InRange(now', counter')
    ensures InRange(now, counter)
  {
  }

  lemma FitsThroughout(w: World, schedule: seq<Action>)
    requires Fits(Run(w, schedule))
    ensures Fits(w)
  {
    ClockOnlyAdvances(w, schedule);
    InRangeBefore(w.now, w.counter, Run(w, schedule).now, Run(w, schedule).counter);
  }

  lemma {:induction false} RunKeepsInv(w: World, schedule: seq<Action>)
    requires Inv(w) && Fits(Run(w, schedule))
    ensures Inv(Run(w, schedule))
    ensures w.client.log <= Run(w, schedule).client.log && w.outbox <= Run(w, schedule).outbox
    ensures Run(w, schedule).org == w.org
    decreases |schedule|
  {
    FitsThroughout(w, schedule);
    if schedule != [] {
      NextKeepsInv(w, schedule[0]);
      NextOnlyAdds(w, schedule[0]);
      RunKeepsInv(Next(w, schedule[0]), schedule[1..]);
    }
  }

  lemma StartIsInv(now: nat, org: nat)
    ensures Inv(Start(now, org))
  {
  }

  /** Across any disconnects, failed replays and reconnects, the dispatched sequence numbers strictly
      increase, and every dispatched event was published to the client's organisation. */
  lemma DispatchedInOrder(now: nat, org: nat, schedule: seq<Action>)
    requires Fits(Run(Start(now, org), schedule))
    ensures Ascending(Before, Run(Start(now, org), schedule).client.log)
    ensures forall e :: e in Run(Start(now, org), schedule).client.log
                    ==> e in Run(Start(now, org), schedule).outbox && e.org == org
  {
    StartIsInv(now, org);
    RunKeepsInv(Start(now, org), schedule);
    LogInOrder(Run(Start(now, org), schedule));
  }

  lemma LogInOrder(w: World)
    requires Inv(w)
    ensures Ascending(Before, w.client.log)
    ensures forall e :: e in w.client.log ==> e in w.outbox && e.org == w.org
  {
    var s := w.client.log + Ahead(w);
    forall i, j | 0 <= i < j < |w.client.log| ensures Before(w.client.log[i], w.client.log[j]) {
      assert Before(s[i], s[j]);
    }
    forall e | e in w.client.log ensures e in w.outbox && e.org == w.org {
      assert e in s;
    }
  }

  lemma OvertakenIsAbsent(shorter: seq<Event>, longer: seq<Event>, e: Event)
    requires shorter <= longer && Ascending(Before, longer)
    requires e !in shorter && shorter != [] && Before(e, shorter[|shorter| - 1])
    ensures e !in longer
  {
    var n := |shorter| - 1;
    forall i | 0 <= i < |longer| ensures longer[i] != e {
      if i > n {
        assert Before(longer[n], longer[i]);
        StrLessConnected(e.seqNo, longer[n].seqNo);
      }
    }
  }

  /** An event that a later one has overtaken is never dispatched, whatever happens next. */
  lemma SkippedIsLost(w: World, e: Event, rest: seq<Action>)
    requires Inv(w) && Fits(Run(w, rest))
    requires e !in w.client.log && w.client.log != [] && Before(e, w.client.log[|w.client.log| - 1])
    ensures e !in Run(w, rest).client.log
  {
    RunKeepsInv(w, rest);
    LogInOrder(Run(w, rest));
    OvertakenIsAbsent(w.client.log, Run(w, rest).client.log, e);
  }

  // ----- Completeness -----

  /** The events of the client's organisation, in order of publication. */
  function Mine(w: World): seq<Event> { Filter((e: Event) => e.org == w.org, w.outbox) }

  /** Every event of the organisation after the cursor has committed. */
  ghost predicate AllVisible(w: World, since: string) {
    forall e :: e in w.outbox && Wanted(e, w.org, since) ==> e in w.visible
  }

  /** An answer closes the gap since the cursor iff all of it has committed and it fits one page. */
  lemma AnswerClosesGapIff(w: World)
    requires Inv(w) && Fits(w) && w.call.Fetching?
    ensures (Next(w, ServerAnswers).call.rows == After(w.outbox, w.org, w.call.since))
      <==> AllVisible(w, w.call.since) && |After(w.outbox, w.org, w.call.since)| <= PAGE_SIZE
  {
    var since := w.call.since;
    var missed, seen := After(w.outbox, w.org, since), After(Table(w), w.org, since);
    OutboxIsDistinct(w);
    TableIs(w);
    AfterIs(w.outbox, w.org, since);
    AfterIs(Table(w), w.org, since);
    if Take(PAGE_SIZE, seen) == missed {
      forall e | e in w.outbox && Wanted(e, w.org, since) ensures e in w.visible {
        assert e in missed && e in seen;
      }
    }
    if AllVisible(w, since) {
      BeforeIsStrictWeak();
      AscendingUnique(Before, seen, missed);
    }
  }

  /** The step loses nothing: see `CompleteFromFirstSeen`. */
  ghost predicate Calm(w: World, a: Action) {
    match a
    case Publish(to, _, _, channelUp) => to == w.org ==>
      && (w.link.Up? ==> channelUp)
      && (w.client.log != [] ==> !w.link.Opening? && !w.call.Answered?)
    case ServerAnswers => w.call.Fetching? ==>
      AllVisible(w, w.call.since) && |After(w.outbox, w.org, w.call.since)| <= PAGE_SIZE
    case ReplayFails => w.call == NoCall
    case _ => true
  }

  ghost predicate CalmRun(w: World, schedule: seq<Action>)
    decreases |schedule|
  {
    schedule == [] || (Calm(w, schedule[0]) && CalmRun(Next(w, schedule[0]), schedule[1..]))
  }

  predicate CaughtUp(w: World) {
    w.link.Up? || (w.client.log != [] && (w.link.Opening? || w.call.Answered?))
  }

  /** What was and will be dispatched is the organisation's events from the `k`-th on, without a gap. */
  ghost predicate Window(w: World, k: nat) {
    var s := w.client.log + Ahead(w);
    && k + |s| <= |Mine(w)| && Mine(w)[k..k + |s|] == s
    && (CaughtUp(w) ==> k + |s| == |Mine(w)|)
  }

  lemma {:induction false} FilterAscends(p: Event -> bool, s: seq<Event>)
    requires Ascending(Before, s)
    ensures Ascending(Before, Filter(p, s))
  {
    if s != [] {
      FilterAscends(p, s[1..]);
      FilterMembers(p, s[1..]);
      var rest := Filter(p, s[1..]);
      forall e | e in rest ensures Before(s[0], e) {
        assert e in s[1..];
        var i :| 0 <= i < |s[1..]| && s[1..][i] == e;
        assert Before(s[0], s[i + 1]);
      }
    }
  }

  /** What an organisation's events after the `j`-th are, read from the outbox by cursor. */
  lemma MineAfter(w: World, j: nat)
    requires Inv(w) && Fits(w) && 0 < j <= |Mine(w)|
    ensures After(w.outbox, w.org, Mine(w)[j - 1].seqNo) == Mine(w)[j..]
  {
    var mine := Mine(w);
    OutboxIsDistinct(w);
    FilterAscends((e: Event) => e.org == w.org, w.outbox);
    FilterMembers((e: Event) => e.org == w.org, w.outbox);
    BeforeIsStrictWeak();
    AfterIs(w.outbox, w.org, "");
    AscendingUnique(Before, After(w.outbox, w.org, ""), mine);
    AfterFromLast(w.outbox, w.org, "", j);
  }

  /** An answer is everything after the stretch dispatched so far. */
  lemma AnswerIsTheRest(w: World, k: nat)
    requires Inv(w) && Fits(w) && w.call.Fetching? && Window(w, k) && Calm(w, ServerAnswers)
    ensures k + |w.client.log| <= |Mine(w)|
    ensures Next(w, ServerAnswers).call.rows == Mine(w)[k + |w.client.log|..]
  {
    CursorIsBeforeTheRest(w, k);
    MineAfter(w, k + |w.client.log|);
    AnswerClosesGapIff(w);
  }

  /** The cursor of the request is the event at the end of the window. */
  lemma CursorIsBeforeTheRest(w: World, k: nat)
    requires Inv(w) && w.call.Fetching? && Window(w, k)
    ensures var n := k + |w.client.log|;
      0 < n <= |Mine(w)| && w.client.log == Mine(w)[k..n] && w.call.since == Mine(w)[n - 1].seqNo
  {
    CursorIsTheLast(w);
    EndOfWindow(w, k);
  }

  lemma EndOfWindow(w: World, k: nat)
    requires Window(w, k) && w.client.log != [] && w.client.log + Ahead(w) == w.client.log
    ensures var n := k + |w.client.log|;
      n <= |Mine(w)| && w.client.log == Mine(w)[k..n] && w.client.log[|w.client.log| - 1] == Mine(w)[n - 1]
  {
    LastOfSlice(Mine(w), w.client.log, k);
  }

  lemma CursorIsTheLast(w: World)
    requires Inv(w) && w.call.Fetching?
    ensures w.client.log != [] && w.client.log + Ahead(w) == w.client.log
    ensures w.call.since == w.client.log[|w.client.log| - 1].seqNo
  {
  }

  lemma LastOfSlice<T>(all: seq<T>, part: seq<T>, k: nat)
    requires part != [] && k + |part| <= |all| && all[k..k + |part|] == part
    ensures part[|part| - 1] == all[k + |part| - 1]
  {
  }

  lemma Stretch<T>(all: seq<T>, part: seq<T>, k: nat)
    requires k + |part| <= |all| && all[k..k + |part|] == part
    ensures part + all[k + |part|..] == all[k..]
  {
  }

  lemma AnswerKeepsWindow(w: World, k: nat)
    requires Inv(w) && Fits(w) && w.call.Fetching? && Window(w, k) && Calm(w, ServerAnswers)
    ensures Window(Next(w, ServerAnswers), k)
  {
    AnswerIsTheRest(w, k);
    assert w.client.log + Ahead(w) == w.client.log;
    Stretch(Mine(w), w.client.log, k);
    assert Mine(Next(w, ServerAnswers)) == Mine(w);
  }

  lemma StretchSnoc<T>(all: seq<T>, part: seq<T>, k: nat, x: T)
    requires k + |part| <= |all| && all[k..k + |part|] == part
    ensures (all + [x])[k..k + |part|] == part
    ensures k + |part| == |all| ==> (all + [x])[k..] == part + [x]
  {
  }

  lemma PublishKeepsWindow(w: World, a: Action, k: nat)
    requires Inv(w) && Fits(w) && a.Publish? && Window(w, k) && Calm(w, a)
    ensures Window(Next(w, a), k)
  {
    var e, w' := Published(w, a), Next(w, a);
    var s := w.client.log + Ahead(w);
    MineGrows(w, a);
    StretchSnoc(Mine(w), s, k, e);
    if w'.link != w.link {
      assert w'.client.log + Ahead(w') == s + [e];
    }
  }

  lemma MineGrows(w: World, a: Action)
    requires a.Publish?
    ensures Mine(Next(w, a)) == if a.to == w.org then Mine(w) + [Published(w, a)] else Mine(w)
  {
    FilterSnoc((x: Event) => x.org == w.org, w.outbox, Published(w, a));
    assert Mine(w) + [] == Mine(w);
  }

  lemma ArrivalKeepsWindow(w: World, k: nat)
    requires Inv(w) && Fits(w) && w.call.Answered? && Window(w, k)
    ensures Window(Next(w, ReplayArrives), k)
  {
    var w' := Next(w, ReplayArrives);
    OutboxIsDistinct(w);
    forall e | e in w.call.rows ensures e.seqNo != "" {
      assert e in w.client.log + Ahead(w);
    }
    DispatchAllIs(w.client, w.call.rows);
    assert w'.client.log + Ahead(w') == w.client.log + w.call.rows;
    assert Mine(w') == Mine(w);
  }

  /** A broken stream drops what was on its way and keeps the events before it. */
  lemma DroppingKeepsWindow(w: World, w': World, k: nat)
    requires Window(w, k) && w'.client.log == w.client.log && w'.outbox == w.outbox && w'.org == w.org
    requires Ahead(w') == [] && (CaughtUp(w') ==> CaughtUp(w) && Ahead(w) == [])
    ensures Window(w', k)
  {
  }

  lemma SameKeepsWindow(w: World, w': World, k: nat)
    requires Window(w, k) && w'.client.log + Ahead(w') == w.client.log + Ahead(w)
    requires w'.outbox == w.outbox && w'.org == w.org && (CaughtUp(w') ==> CaughtUp(w))
    ensures Window(w', k)
  {
  }

  /** The first subscription: the window starts after everything published so far. */
  lemma FirstSubscriptionStartsWindow(w: World)
    requires Inv(w) && w.link.Opening? && w.client.log == []
    ensures Window(Next(w, Subscribed), |Mine(w)|)
  {
  }

  lemma ConnectingKeepsWindow(w: World, k: nat)
    requires Inv(w) && Fits(w) && Window(w, k)
    ensures Window(Connecting(w), k)
  {
  }

  lemma TimerKeepsWindow(w: World, id: nat, k: nat)
    requires Inv(w) && Fits(w) && Window(w, k)
    ensures Window(Next(w, TimerFires(id)), k)
  {
    var w' := w.(client := Fire(w.client, id));
    SameKeepsWindow(w, w', k);
    ConnectingKeepsWindow(w', k);
  }

  lemma NextKeepsWindow(w: World, a: Action, k: nat) returns (k': nat)
    requires Inv(w) && Fits(w) && Window(w, k) && Calm(w, a)
    ensures Window(Next(w, a), k')
    ensures w.client.log != [] ==> k' == k
  {
    k' := k;
    var w' := Next(w, a);
    match a
    case Publish(_, _, _, _) => PublishKeepsWindow(w, a, k);
    case ServerAnswers => if w.call.Fetching? { AnswerKeepsWindow(w, k); }
    case ReplayArrives => if w.call.Answered? { ArrivalKeepsWindow(w, k); }
    case Deliver =>
      if w.link.Up? && w.link.queue != [] {
        DeliverMovesOne(w);
        SameKeepsWindow(w, w', k);
      }
    case Subscribed =>
      if w.link.Opening? && w.client.log == [] {
        FirstSubscriptionStartsWindow(w);
        k' := |Mine(w)|;
      } else {
        SameKeepsWindow(w, w', k);
      }
    case Connect => ConnectingKeepsWindow(w, k);
    case TimerFires(id) => TimerKeepsWindow(w, id, k);
    case Error => if w.client.open { DroppingKeepsWindow(w, w', k); }
    case Disconnect =>
      if w.link == Down { SameKeepsWindow(w, w', k); } else { DroppingKeepsWindow(w, w', k); }
    case _ => SameKeepsWindow(w, w', k);
  }

  lemma {:induction false} RunKeepsWindow(w: World, schedule: seq<Action>, k: nat) returns (k': nat)
    requires Inv(w) && Window(w, k) && CalmRun(w, schedule) && Fits(Run(w, schedule))
    ensures Window(Run(w, schedule), k')
    decreases |schedule|
  {
    FitsThroughout(w, schedule);
    k' := k;
    if schedule != [] {
      NextKeepsInv(w, schedule[0]);
      var next := NextKeepsWindow(w, schedule[0], k);
      k' := RunKeepsWindow(Next(w, schedule[0]), schedule[1..], next);
    }
  }

  /** If every replay succeeds, finds everything it missed committed and at most one page of it, nothing
      is published to the organisation between a replay's answer and the new subscription, and the channel
      takes every message while the client listens, then the log is the outbox from the first event seen:
      a stretch of it at all times, and all the rest once the stream has been drained. */
  lemma CompleteFromFirstSeen(now: nat, org: nat, schedule: seq<Action>) returns (k: nat)
    requires CalmRun(Start(now, org), schedule) && Fits(Run(Start(now, org), schedule))
    ensures var w := Run(Start(now, org), schedule);
      && k + |w.client.log| <= |Mine(w)|
      && w.client.log == Mine(w)[k..k + |w.client.log|]
      && (w.link == Up([]) ==> w.client.log == Mine(w)[k..])
  {
    var w := Run(Start(now, org), schedule);
    StartIsInv(now, org);
    assert Window(Start(now, org), 0);
    k := RunKeepsWindow(Start(now, org), schedule, 0);
    var s, log := w.client.log + Ahead(w), w.client.log;
    assert s[..|log|] == log;
    assert Mine(w)[k..k + |s|][..|log|] == Mine(w)[k..k + |log|];
    if w.link == Up([]) {
      RunKeepsInv(Start(now, org), schedule);
      assert s == log;
    }
  }

  // ----- Why the conditions are there -----

  lemma {:induction false} RunSnoc(w: World, schedule: seq<Action>, a: Action)
    ensures Run(w, schedule + [a]) == Next(Run(w, schedule), a)
    decreases |schedule|
  {
    if schedule == [] {
      assert Run(Next(w, a), []) == Next(w, a);
    } else {
      assert (schedule + [a])[1..] == schedule[1..] + [a];
      RunSnoc(Next(w, schedule[0]), schedule[1..], a);
    }
  }

  lemma {:induction false} RunConcat(w: World, a: seq<Action>, b: seq<Action>)
    ensures Run(w, a + b) == Run(Run(w, a), b)
    decreases |b|
  {
    if b == [] {
      assert a + b == a;
    } else {
      RunSnoc(w, a, b[0]);
      RunConcat(w, a + [b[0]], b[1..]);
      assert a + b == a + [b[0]] + b[1..];
    }
  }

  lemma RunFour(w: World, a: Action, b: Action, c: Action, d: Action)
    ensures Run(w, [a, b, c, d]) == Next(Next(Next(Next(w, a), b), c), d)
  {
    assert Run(w, []) == w;
    RunSnoc(w, [], a);
    RunSnoc(w, [a], b);
    RunSnoc(w, [a, b], c);
    RunSnoc(w, [a, b, c], d);
    assert [] + [a] == [a] && [a] + [b] == [a, b] && [a, b] + [c] == [a, b, c];
    assert [a, b, c] + [d] == [a, b, c, d];
  }

  lemma SeesOneEvent(now: nat, org: nat, p: Action)
    requires p.Publish? && p.to == org && p.channelUp
    ensures var seen := Run(Start(now, org), [Connect, Subscribed, p, Deliver]);
      seen.client.open && seen.client.lastSeq != "" && seen.call == NoCall
      && seen.client.timer == None && seen.client.nextTimeout == 0 && seen.client.log == Mine(seen)
  {
    var s := Start(now, org);
    RunFour(s, Connect, Subscribed, p, Deliver);
    var listening := Next(Next(s, Connect), Subscribed);
    assert listening.link == Up([]) && Next(listening, p).link == Up([Published(s, p)]);
    assert |SeqOf(now, 0)| > 0;
    MineGrows(listening, p);
    assert Mine(listening) == [];
    assert Next(Next(listening, p), Deliver).outbox == Next(listening, p).outbox;
  }

  /** Runs do reach a replay request whose client has dispatched all of the organisation's events. */
  lemma RequestIsReachable(now: nat, org: nat, p: Action) returns (schedule: seq<Action>)
    requires p.Publish? && p.to == org && p.channelUp
    ensures var w := Run(Start(now, org), schedule); w.call.Fetching? && Window(w, 0)
  {
    var a, b := [Connect, Subscribed, p, Deliver], [Error, TimerFires(0), Tick(0), Tick(0)];
    schedule := a + b;
    SeesOneEvent(now, org, p);
    RunConcat(Start(now, org), a, b);
    RunFour(Run(Start(now, org), a), Error, TimerFires(0), Tick(0), Tick(0));
  }
}

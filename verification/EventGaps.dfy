/** Over any run, with any number of reconnects and failed replays: when the dispatch log has no gap. */
module EventGaps {
  import opened Base
  import opened Ordering
  import opened EventSeq
  import opened EventReplay
  import opened EventClient
  import opened EventRuns
  import opened EventTheorems
  import opened EventReconnect

  /** What an action hands to the handlers. */
  function Dispatched(w: World, a: Action): seq<Event> {
    match a
    case ReplayArrives => if w.call.Answered? then w.call.rows else []
    case Deliver => if w.link.Up? && w.link.queue != [] then [w.link.queue[0]] else []
    case _ => []
  }

  /** The organisation's events after the last one dispatched. */
  function Due(w: World): seq<Event> { After(w.outbox, w.org, w.client.lastSeq) }

  /** The action dispatches what is due next, or is the first to dispatch. */
  predicate InOrder(w: World, a: Action) {
    w.client.log == [] || Dispatched(w, a) <= Due(w)
  }

  ghost predicate InOrderAt(w: World, s: seq<Action>, i: nat)
    requires i < |s|
  {
    InOrder(Run(w, s[..i]), s[i])
  }

  lemma LogStep(w: World, a: Action)
    requires Inv(w) && Fits(w)
    ensures Next(w, a).client.log == w.client.log + Dispatched(w, a)
  {
    if a == ReplayArrives && w.call.Answered? {
      ArrivedLog(w);
    }
  }

  lemma DispatchedIsMine(w: World, a: Action)
    requires Inv(w)
    ensures Dispatched(w, a) != [] ==> Mine(Next(w, a)) == Mine(w)
    ensures forall e :: e in Dispatched(w, a) ==> e in Mine(w)
    ensures w.client.log == [] ==> |Dispatched(w, a)| <= 1
  {
    FilterMembers((e: Event) => e.org == w.org, w.outbox);
    forall e | e in Dispatched(w, a) ensures e in Mine(w) {
      assert e in w.client.log + Ahead(w);
    }
  }

  /** In a sequence without repetitions, a stretch that ends before `n` is continued by what comes next. */
  lemma ContinuesIff<T(!new)>(all: seq<T>, log: seq<T>, more: seq<T>, k: nat)
    requires AllDiffer(all) && log != [] && IsPartAt(log, all, k)
    ensures IsPart(log + more, all) <==> more <= all[k + |log|..]
  {
    var n := k + |log|;
    if IsPart(log + more, all) {
      var j: nat :| IsPartAt(log + more, all, j);
      assert all[j] == (log + more)[0] == log[0] == all[k..n][0] == all[k];
      assert (log + more)[|log|..] == more;
      SliceOfSlice(all, k, |log + more|, |log|, |more|);
      assert more == all[n..n + |more|] == all[n..][..|more|];
    }
    if more <= all[n..] {
      assert all[k..k + |log + more|] == all[k..n] + all[n..][..|more|];
      assert IsPartAt(log + more, all, k);
    }
  }

  /** The events due are those after the stretch. */
  lemma DueIs(w: World, k: nat)
    requires Inv(w) && Fits(w) && w.client.log != [] && IsPartAt(w.client.log, Mine(w), k)
    ensures Due(w) == Mine(w)[k + |w.client.log|..]
  {
    LastSeqIs(w);
    StretchEnds(w, k);
    DueAfter(w, k + |w.client.log|);
  }

  lemma StretchEnds(w: World, k: nat)
    requires w.client.log != [] && IsPartAt(w.client.log, Mine(w), k)
    ensures var n := k + |w.client.log|; n <= |Mine(w)| && w.client.log[|w.client.log| - 1] == Mine(w)[n - 1]
  {
    LastOfSlice(Mine(w), w.client.log, k);
  }

  lemma DueAfter(w: World, n: nat)
    requires Inv(w) && Fits(w) && 0 < n <= |Mine(w)| && w.client.lastSeq == Mine(w)[n - 1].seqNo
    ensures Due(w) == Mine(w)[n..]
  {
    MineAfter(w, n);
  }

  lemma LastSeqIs(w: World)
    requires Inv(w) && w.client.log != []
    ensures w.client.lastSeq == w.client.log[|w.client.log| - 1].seqNo
  {
  }

  lemma StepIsInOrderIff(w: World, a: Action)
    requires Inv(w) && Fits(w) && IsStretch(w)
    ensures IsStretch(Next(w, a)) <==> InOrder(w, a)
  {
    LogStep(w, a);
    DispatchedIsMine(w, a);
    if Dispatched(w, a) == [] {
      NextOnlyAdds(w, a);
      KeepsItsStretch(w, Next(w, a));
    } else if w.client.log == [] {
      FirstIsStretch(Next(w, a));
    } else {
      DispatchIsInOrderIff(w, Dispatched(w, a), Next(w, a));
    }
  }

  lemma KeepsItsStretch(w: World, v: World)
    requires IsStretch(w) && v.client.log == w.client.log + [] && w.outbox <= v.outbox && v.org == w.org
    ensures IsStretch(v)
  {
    MineExtends(w, v);
    assert w.client.log + [] == w.client.log;
    PartOfLonger(w.client.log, Mine(w), Mine(v));
  }

  lemma FirstIsStretch(v: World)
    requires |v.client.log| == 1 && v.client.log[0] in Mine(v)
    ensures IsStretch(v)
  {
    OneIsPart(v.client.log, Mine(v));
  }

  lemma DispatchIsInOrderIff(w: World, rows: seq<Event>, v: World)
    requires Inv(w) && Fits(w) && IsStretch(w) && w.client.log != []
    requires Mine(v) == Mine(w) && v.client.log == w.client.log + rows
    ensures IsStretch(v) <==> rows <= Due(w)
  {
    var k := StretchPlace(w);
    MineIsDistinct(w);
    ContinuesIff(Mine(w), w.client.log, rows, k);
  }

  lemma StretchPlace(w: World) returns (k: nat)
    requires Inv(w) && Fits(w) && IsStretch(w) && w.client.log != []
    ensures IsPartAt(w.client.log, Mine(w), k) && Due(w) == Mine(w)[k + |w.client.log|..]
  {
    k :| IsPartAt(w.client.log, Mine(w), k);
    DueIs(w, k);
  }

  lemma PartOfLonger<T(!new)>(part: seq<T>, some: seq<T>, all: seq<T>)
    requires some <= all && IsPart(part, some)
    ensures IsPart(part, all)
  {
    var j: nat :| IsPartAt(part, some, j);
    assert all[j..j + |part|] == some[j..j + |part|];
    assert IsPartAt(part, all, j);
  }

  lemma OneIsPart<T(!new)>(s: seq<T>, all: seq<T>)
    requires |s| == 1 && s[0] in all
    ensures IsPart(s, all)
  {
    var j: nat :| j < |all| && all[j] == s[0];
    assert IsPartAt(s, all, j);
  }

  lemma StartIsStretch(now: nat, org: nat)
    ensures IsStretch(Start(now, org))
  {
    assert IsPartAt([], Mine(Start(now, org)), 0);
  }

  lemma AnyStepIff(w: World, a: Action)
    requires Inv(w) && Fits(w) && Fits(Next(w, a))
    ensures IsStretch(Next(w, a)) <==> IsStretch(w) && InOrder(w, a)
  {
    if IsStretch(w) {
      StepIsInOrderIff(w, a);
    } else {
      StaysBroken(w, a);
    }
  }

  ghost predicate InOrderThroughout(w: World, s: seq<Action>) {
    forall i :: 0 <= i < |s| ==> InOrderAt(w, s, i)
  }

  lemma InOrderSnoc(w: World, front: seq<Action>, a: Action)
    ensures InOrderThroughout(w, front + [a]) <==> InOrderThroughout(w, front) && InOrder(Run(w, front), a)
  {
    var s := front + [a];
    assert s[..|front|] == front;
    forall i | 0 <= i < |front| ensures InOrderAt(w, s, i) <==> InOrderAt(w, front, i) {
      assert s[..i] == front[..i];
    }
    assert InOrderAt(w, s, |front|) <==> InOrder(Run(w, front), a);
    if InOrderThroughout(w, s) {
      forall i | 0 <= i < |front| ensures InOrderAt(w, front, i) {
        assert InOrderAt(w, s, i);
      }
    }
  }

  lemma {:induction false} InOrderThroughoutIff(w: World, s: seq<Action>)
    requires Inv(w) && Fits(Run(w, s)) && IsStretch(w)
    ensures IsStretch(Run(w, s)) <==> InOrderThroughout(w, s)
    decreases |s|
  {
    if s != [] {
      var front, a := s[..|s| - 1], s[|s| - 1];
      assert s == front + [a];
      LastActionIff(w, front, a);
      InOrderThroughoutIff(w, front);
      InOrderSnoc(w, front, a);
    }
  }

  lemma LastActionIff(w: World, front: seq<Action>, a: Action)
    requires Inv(w) && Fits(Run(w, front + [a]))
    ensures Fits(Run(w, front))
    ensures IsStretch(Run(w, front + [a])) <==> IsStretch(Run(w, front)) && InOrder(Run(w, front), a)
  {
    RunSnoc(w, front, a);
    FitsBefore(Run(w, front), a);
    RunKeepsInv(w, front);
    AnyStepIff(Run(w, front), a);
  }

  lemma StaysBroken(w: World, a: Action)
    requires Inv(w) && Fits(Next(w, a)) && !IsStretch(w)
    ensures !IsStretch(Next(w, a))
  {
    assert Run(w, []) == w;
    RunSnoc(w, [], a);
    assert [] + [a] == [a];
    GapsAreForever(w, [a]);
  }

  /** Whatever connects, errors, timeouts, replays, failed replays and deliveries a run holds, its log is a
      stretch of the organisation's events if and only if every action that dispatches something hands out
      the events that come next. */
  lemma RunIsGaplessIff(now: nat, org: nat, s: seq<Action>)
    requires Fits(Run(Start(now, org), s))
    ensures IsStretch(Run(Start(now, org), s)) <==> InOrderThroughout(Start(now, org), s)
  {
    StartIsInv(now, org);
    StartIsStretch(now, org);
    InOrderThroughoutIff(Start(now, org), s);
  }

  // ----- A reconnect whose replay fails -----

  /** The replay fails, the stream subscribes after `c`, and the first live event comes after `d`. */
  function ReconnectedBlindly(w: World, c: seq<Action>, d: seq<Action>): World {
    Delivered(Listening(Next(w, ReplayFails), c), d)
  }

  lemma BlindLog(w: World, c: seq<Action>, d: seq<Action>)
    requires w.call != NoCall && Quiet(c) && Quiet(d) && Heard(d, w.org)
    ensures var v, p := ReconnectedBlindly(w, c, d), |Mine(w)| + Posts(c, w.org) + Unheard(d, w.org);
      Mine(w) <= Mine(v) && p < |Mine(v)| && v.client.log == w.client.log + [Mine(v)[p]]
  {
    var w1 := Next(w, ReplayFails);
    var w2 := Run(w1, c);
    var w3 := Next(w2, Subscribed);
    assert Mine(w1) == Mine(w);
    QuietRun(w1, c);
    assert Mine(w3) == Mine(w2);
    HearsQuietly(w3, d);
  }

  lemma BlindKeepsInv(w: World, c: seq<Action>, d: seq<Action>)
    requires Inv(w) && Fits(ReconnectedBlindly(w, c, d))
    ensures Fits(w) && Inv(ReconnectedBlindly(w, c, d))
  {
    var w1 := Next(w, ReplayFails);
    var w2 := Run(w1, c);
    var w3 := Listening(w1, c);
    var w4 := Run(w3, d);
    FitsBefore(w4, Deliver);
    FitsThroughout(w3, d);
    FitsBefore(w2, Subscribed);
    FitsThroughout(w1, c);
    FitsBefore(w, ReplayFails);
    NextKeepsInv(w, ReplayFails);
    RunKeepsInv(w1, c);
    NextKeepsInv(w2, Subscribed);
    RunKeepsInv(w3, d);
    NextKeepsInv(w4, Deliver);
  }

  /** What the client ends up with: the event after the `missed` ones. */
  ghost predicate HearsAfter(w: World, v: World, missed: nat) {
    && Mine(w) <= Mine(v) && AllDiffer(Mine(v)) && |Mine(w)| + missed < |Mine(v)|
    && v.client.log == w.client.log + [Mine(v)[|Mine(w)| + missed]]
  }

  lemma BlindHearsAfter(w: World, c: seq<Action>, d: seq<Action>)
    requires Inv(w) && w.call != NoCall && Quiet(c) && Quiet(d) && Heard(d, w.org)
    requires Fits(ReconnectedBlindly(w, c, d))
    ensures Fits(w) && HearsAfter(w, ReconnectedBlindly(w, c, d), Posts(c, w.org) + Unheard(d, w.org))
  {
    BlindKeepsInv(w, c, d);
    BlindLog(w, c, d);
    MineIsDistinct(ReconnectedBlindly(w, c, d));
  }

  lemma BlindIff(w: World, v: World, missed: nat)
    requires Inv(w) && Fits(w) && IsStretch(w) && w.client.log != [] && HearsAfter(w, v, missed)
    ensures IsStretch(v) <==> Due(w) == [] && missed == 0
  {
    var k := StretchPlace(w);
    assert w.client.log + [] == w.client.log;
    StretchAfterIff(Mine(w), Mine(v), w.client.log, [], k, |Mine(w)| + missed, v.client.log);
  }

  /** A reconnect whose replay fails loses nothing if and only if nothing was due when it failed and nothing
      was published before the first live event without being heard. */
  lemma FailedReplayIsGaplessIff(w: World, c: seq<Action>, d: seq<Action>)
    requires Inv(w) && w.call != NoCall && IsStretch(w)
    requires Quiet(c) && Quiet(d) && Heard(d, w.org) && Fits(ReconnectedBlindly(w, c, d))
    ensures IsStretch(ReconnectedBlindly(w, c, d))
       <==> Due(w) == [] && Posts(c, w.org) + Unheard(d, w.org) == 0
  {
    BlindHearsAfter(w, c, d);
    BlindIff(w, ReconnectedBlindly(w, c, d), Posts(c, w.org) + Unheard(d, w.org));
  }
}

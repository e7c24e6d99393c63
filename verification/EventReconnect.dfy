/** One reconnect, from the replay request to the first live event: when nothing is lost in between. */
module EventReconnect {
  import opened Base
  import opened Ordering
  import opened EventSeq
  import opened EventReplay
  import opened EventClient
  import opened EventRuns
  import opened EventTheorems

  /** What the rest of the system does meanwhile: time passes, events are published, rows commit. */
  predicate Quiet(s: seq<Action>) {
    forall i :: 0 <= i < |s| ==> s[i].Tick? || s[i].Publish? || s[i].Commit?
  }

  predicate IsPost(a: Action, org: nat) { a.Publish? && a.to == org }

  /** How many events are published to the organisation. */
  function Posts(s: seq<Action>, org: nat): nat {
    if s == [] then 0 else (if IsPost(s[0], org) then 1 else 0) + Posts(s[1..], org)
  }

  /** Some event to the organisation goes through the channel. */
  predicate Heard(s: seq<Action>, org: nat) {
    s != [] && ((IsPost(s[0], org) && s[0].channelUp) || Heard(s[1..], org))
  }

  /** How many events to the organisation come before the first that goes through the channel. */
  function Unheard(s: seq<Action>, org: nat): nat {
    if s == [] || (IsPost(s[0], org) && s[0].channelUp) then 0
    else (if IsPost(s[0], org) then 1 else 0) + Unheard(s[1..], org)
  }

  lemma QuietStep(w: World, a: Action)
    requires Quiet([a])
    ensures var v := Next(w, a);
      && v.client == w.client && v.call == w.call && v.org == w.org
      && Mine(v) == Mine(w) + (if IsPost(a, w.org) then [Published(w, a)] else [])
      && v.link == if w.link.Up? && IsPost(a, w.org) && a.channelUp
                   then Up(w.link.queue + [Published(w, a)]) else w.link
  {
    assert [a][0] == a;
    assert Mine(w) + [] == Mine(w);
    if a.Publish? {
      MineGrows(w, a);
    }
  }

  lemma {:induction false} QuietRun(w: World, s: seq<Action>)
    requires Quiet(s)
    ensures var v := Run(w, s);
      && v.client == w.client && v.call == w.call && v.org == w.org
      && Mine(w) <= Mine(v) && |Mine(v)| == |Mine(w)| + Posts(s, w.org)
      && (!w.link.Up? ==> v.link == w.link)
      && (w.link.Up? ==> v.link.Up? && w.link.queue <= v.link.queue)
    decreases |s|
  {
    if s != [] {
      QuietStep(w, s[0]);
      QuietRun(Next(w, s[0]), s[1..]);
    }
  }

  /** The first live event is the first that goes through the channel after the subscription. */
  lemma {:induction false} FirstHeard(w: World, s: seq<Action>)
    requires Quiet(s) && w.link == Up([]) && Heard(s, w.org)
    ensures var v := Run(w, s);
      && v.link.Up? && v.link.queue != [] && |Mine(w)| + Unheard(s, w.org) < |Mine(v)|
      && v.link.queue[0] == Mine(v)[|Mine(w)| + Unheard(s, w.org)]
    decreases |s|
  {
    var w' := Next(w, s[0]);
    QuietStep(w, s[0]);
    QuietRun(w', s[1..]);
    if IsPost(s[0], w.org) && s[0].channelUp {
      assert [] + [Published(w, s[0])] == [Published(w, s[0])];
      assert w'.link.queue[0] == Mine(w')[|Mine(w)|];
    } else {
      FirstHeard(w', s[1..]);
    }
  }

  // ----- One reconnect -----

  ghost predicate IsPartAt<T>(part: seq<T>, all: seq<T>, j: nat) {
    j + |part| <= |all| && all[j..j + |part|] == part
  }

  ghost predicate IsPart<T>(part: seq<T>, all: seq<T>) {
    exists j: nat :: IsPartAt(part, all, j)
  }

  ghost predicate AllDiffer<T>(s: seq<T>) {
    forall i, j :: 0 <= i < j < |s| ==> s[i] != s[j]
  }

  /** The log is a stretch of the organisation's events. */
  ghost predicate IsStretch(w: World) { IsPart(w.client.log, Mine(w)) }

  /** The replay answered and arrived, with `b` happening in between. */
  function Arrived(w: World, b: seq<Action>): World {
    Next(Run(Next(w, ServerAnswers), b), ReplayArrives)
  }

  /** The stream subscribed after `c`. */
  function Listening(w: World, c: seq<Action>): World { Next(Run(w, c), Subscribed) }

  /** The first live event delivered after `d`. */
  function Delivered(w: World, d: seq<Action>): World { Next(Run(w, d), Deliver) }

  function Reconnected(w: World, b: seq<Action>, c: seq<Action>, d: seq<Action>): World {
    Delivered(Listening(Arrived(w, b), c), d)
  }

  function ReconnectSchedule(a: seq<Action>, b: seq<Action>, c: seq<Action>, d: seq<Action>): seq<Action> {
    a + [ServerAnswers] + b + [ReplayArrives] + c + [Subscribed] + d + [Deliver]
  }

  lemma ReconnectedIsARun(w: World, a: seq<Action>, b: seq<Action>, c: seq<Action>, d: seq<Action>)
    ensures Reconnected(Run(w, a), b, c, d) == Run(w, ReconnectSchedule(a, b, c, d))
  {
    RunSnoc(w, a, ServerAnswers);
    RunConcat(w, a + [ServerAnswers], b);
    RunSnoc(w, a + [ServerAnswers] + b, ReplayArrives);
    RunConcat(w, a + [ServerAnswers] + b + [ReplayArrives], c);
    RunSnoc(w, a + [ServerAnswers] + b + [ReplayArrives] + c, Subscribed);
    RunConcat(w, a + [ServerAnswers] + b + [ReplayArrives] + c + [Subscribed], d);
    RunSnoc(w, a + [ServerAnswers] + b + [ReplayArrives] + c + [Subscribed] + d, Deliver);
  }

  /** In a sequence without repetitions, a stretch followed by `rows` and then by the element at `p` is a
      stretch exactly if `rows` is all that is left before `m`, and `p` is `m`. */
  lemma StretchIff<T(!new)>(all: seq<T>, log: seq<T>, rows: seq<T>, k: nat, m: nat, p: nat)
    requires AllDiffer(all) && log != [] && IsPartAt(log, all, k) && k + |log| <= m <= p < |all|
    requires forall r :: r in rows ==> r in all[..m]
    ensures IsPart(log + rows + [all[p]], all) <==> rows == all[k + |log|..m] && p == m
  {
    var s, n := log + rows + [all[p]], k + |log|;
    if IsPart(s, all) {
      var j: nat :| IsPartAt(s, all, j);
      StretchOnlyIf(all, log, rows, k, m, p, j);
    }
    if rows == all[n..m] && p == m {
      assert all[k..m + 1] == all[k..n] + all[n..m] + [all[m]];
      assert IsPartAt(s, all, k);
    }
  }

  lemma StretchOnlyIf<T(!new)>(all: seq<T>, log: seq<T>, rows: seq<T>, k: nat, m: nat, p: nat, j: nat)
    requires AllDiffer(all) && log != [] && IsPartAt(log, all, k) && k + |log| <= m <= p < |all|
    requires forall r :: r in rows ==> r in all[..m]
    requires IsPartAt(log + rows + [all[p]], all, j)
    ensures rows == all[k + |log|..m] && p == m
  {
    var s, n := log + rows + [all[p]], k + |log|;
    assert all[j] == s[0] == log[0] == all[k..n][0] == all[k];
    assert all[j..j + |s|] == all[k..k + |s|] == s;
    assert all[k + |log| + |rows|] == s[|log| + |rows|] == all[p];
    assert p == n + |rows|;
    assert rows == s[|log|..|log| + |rows|];
    SliceOfSlice(all, k, |s|, |log|, |rows|);
    assert rows == all[n..p];
    FrontLacksTheRest(all, n, m, p);
  }

  lemma SliceOfSlice<T>(s: seq<T>, i: nat, m: nat, j: nat, n: nat)
    requires i + m <= |s| && j + n <= m
    ensures s[i..i + m][j..j + n] == s[i + j..i + j + n]
  {
    var part, k := s[i..i + m], i + j;
    assert forall x :: 0 <= x < m ==> part[x] == s[i + x];
    assert part[j..j + n] == s[k..k + n];
  }

  lemma FrontLacksTheRest<T>(all: seq<T>, n: nat, m: nat, p: nat)
    requires AllDiffer(all) && n <= m && p <= |all|
    ensures m < p ==> exists r :: r in all[n..p] && r !in all[..m]
  {
    if m < p {
      assert all[n..p][m - n] == all[m];
      assert all[m] in all[n..p];
    }
  }

  /** The same, when what was there before is the sequence `mine`. */
  lemma StretchAfterIff<T(!new)>(mine: seq<T>, all: seq<T>, log: seq<T>, rows: seq<T>, k: nat, p: nat,
                                     longer: seq<T>)
    requires mine <= all && AllDiffer(all) && log != [] && IsPartAt(log, mine, k) && |mine| <= p < |all|
    requires (forall r :: r in rows ==> r in mine) && longer == log + rows + [all[p]]
    ensures IsPart(longer, all) <==> rows == mine[k + |log|..] && p == |mine|
  {
    var m := |mine|;
    assert all[..m] == mine;
    assert all[k..k + |log|] == mine[k..k + |log|];
    assert all[k + |log|..m] == mine[k + |log|..];
    StretchIff(all, log, rows, k, m, p);
  }

  lemma MineIsDistinct(w: World)
    requires Inv(w)
    ensures AllDiffer(Mine(w))
  {
    var mine := Mine(w);
    FilterAscends((e: Event) => e.org == w.org, w.outbox);
    forall i, j | 0 <= i < j < |mine| ensures mine[i] != mine[j] {
      assert Before(mine[i], mine[j]);
      StrLessConnected(mine[i].seqNo, mine[j].seqNo);
    }
  }

  /** All that the client missed has committed and is at most one page. */
  ghost predicate AnswersAll(w: World)
    requires w.call.Fetching?
  {
    AllVisible(w, w.call.since) && |After(w.outbox, w.org, w.call.since)| <= PAGE_SIZE
  }

  lemma SentIsOld(w: World)
    requires Inv(w) && Fits(w) && w.call.Fetching?
    ensures forall e :: e in w.client.log + Next(w, ServerAnswers).call.rows ==> e in Mine(w)
  {
    var v := Next(w, ServerAnswers);
    AnswerKeepsInv(w);
    FilterMembers((e: Event) => e.org == w.org, w.outbox);
    assert v.client.log + Ahead(v) == w.client.log + v.call.rows;
  }

  /** What the answer is worth, once the server has given it. */
  lemma AnswerIsRestIff(w: World, k: nat)
    requires Inv(w) && Fits(w) && w.call.Fetching? && Window(w, k)
    ensures var n, rows := k + |w.client.log|, Next(w, ServerAnswers).call.rows;
      && IsPartAt(w.client.log, Mine(w), k) && w.client.log != []
      && (forall r :: r in rows ==> r in Mine(w))
      && (rows == Mine(w)[n..] <==> AnswersAll(w))
  {
    var v := Next(w, ServerAnswers);
    CursorIsBeforeTheRest(w, k);
    MineAfter(w, k + |w.client.log|);
    AnswerClosesGapIff(w);
    SentIsOld(w);
  }

  /** From the answer to its arrival. */
  lemma WaitsQuietly(w: World, b: seq<Action>)
    requires w.call.Fetching? && w.link == Down && Quiet(b)
    ensures var v := Run(Next(w, ServerAnswers), b);
      && v.client == w.client && v.call == Next(w, ServerAnswers).call && v.org == w.org
      && Mine(w) <= Mine(v) && |Mine(v)| == |Mine(w)| + Posts(b, w.org)
  {
    assert Mine(Next(w, ServerAnswers)) == Mine(w);
    QuietRun(Next(w, ServerAnswers), b);
  }

  /** From the arrival to the subscription. */
  lemma OpensQuietly(w: World, c: seq<Action>)
    requires Inv(w) && Fits(w) && w.call.Answered? && Quiet(c)
    ensures var v := Next(Run(Next(w, ReplayArrives), c), Subscribed);
      && v.client.log == w.client.log + w.call.rows && v.link == Up([]) && v.org == w.org
      && Mine(w) <= Mine(v) && |Mine(v)| == |Mine(w)| + Posts(c, w.org)
  {
    var w', v := Next(w, ReplayArrives), Run(Next(w, ReplayArrives), c);
    ArrivedLog(w);
    QuietRun(w', c);
    assert Mine(w') == Mine(w) && Mine(Next(v, Subscribed)) == Mine(v);
  }

  /** From the subscription to the first live event. */
  lemma HearsQuietly(w: World, d: seq<Action>)
    requires w.link == Up([]) && Quiet(d) && Heard(d, w.org)
    ensures var v, p := Next(Run(w, d), Deliver), |Mine(w)| + Unheard(d, w.org);
      Mine(w) <= Mine(v) && p < |Mine(v)| && v.client.log == w.client.log + [Mine(v)[p]]
  {
    QuietRun(w, d);
    FirstHeard(w, d);
    DeliveredLog(Run(w, d));
  }

  /** The log after a reconnect, and where its last event stands. */
  lemma ReconnectedLog(w: World, b: seq<Action>, c: seq<Action>, d: seq<Action>)
    requires w.call.Fetching? && w.link == Down && Quiet(b) && Quiet(c) && Quiet(d) && Heard(d, w.org)
    requires var w3 := Run(Next(w, ServerAnswers), b); Inv(w3) && Fits(w3)
    ensures var v := Reconnected(w, b, c, d);
      var p := |Mine(w)| + Posts(b, w.org) + Posts(c, w.org) + Unheard(d, w.org);
      && Mine(w) <= Mine(v) && p < |Mine(v)|
      && v.client.log == w.client.log + Next(w, ServerAnswers).call.rows + [Mine(v)[p]]
  {
    var w3 := Run(Next(w, ServerAnswers), b);
    var w6 := Listening(Next(w3, ReplayArrives), c);
    WaitsQuietly(w, b);
    OpensQuietly(w3, c);
    HearsQuietly(w6, d);
  }

  lemma ArrivedLog(w: World)
    requires Inv(w) && Fits(w) && w.call.Answered?
    ensures var v := Next(w, ReplayArrives);
      v.client.log == w.client.log + w.call.rows && v.link == Opening && v.call == NoCall && v.org == w.org
  {
    OutboxIsDistinct(w);
    forall e | e in w.call.rows ensures e.seqNo != "" {
      assert e in w.client.log + Ahead(w);
    }
    DispatchAllIs(w.client, w.call.rows);
  }

  lemma DeliveredLog(w: World)
    requires w.link.Up? && w.link.queue != []
    ensures var v := Next(w, Deliver);
      v.client.log == w.client.log + [w.link.queue[0]] && Mine(v) == Mine(w)
  {
  }

  lemma WindowStays(w: World, v: World, k: nat)
    requires Window(w, k) && w.call.Fetching? && Mine(w) <= Mine(v) && v.client == w.client && v.call == w.call
    requires v.link == w.link == Down
    ensures Window(v, k)
  {
    var s := w.client.log + Ahead(w);
    assert Mine(v)[k..k + |s|] == Mine(w)[k..k + |s|];
  }

  lemma FitsBefore(w: World, a: Action)
    requires Fits(Next(w, a))
    ensures Fits(w)
  {
    InRangeBefore(w.now, w.counter, Next(w, a).now, Next(w, a).counter);
  }

  lemma InvThroughout(w: World, b: seq<Action>, c: seq<Action>, d: seq<Action>)
    requires Inv(w) && Fits(Reconnected(w, b, c, d))
    ensures Fits(w) && Inv(Reconnected(w, b, c, d))
    ensures var w3 := Run(Next(w, ServerAnswers), b); Inv(w3) && Fits(w3)
  {
    var w2 := Next(w, ServerAnswers);
    var w3 := Run(w2, b);
    var w4 := Arrived(w, b);
    var w5 := Run(w4, c);
    var w6 := Listening(w4, c);
    var w7 := Run(w6, d);
    FitsBefore(w7, Deliver);
    FitsThroughout(w6, d);
    FitsBefore(w5, Subscribed);
    FitsThroughout(w4, c);
    FitsBefore(w3, ReplayArrives);
    FitsThroughout(w2, b);
    FitsBefore(w, ServerAnswers);
    NextKeepsInv(w, ServerAnswers);
    RunKeepsInv(w2, b);
    NextKeepsInv(w3, ReplayArrives);
    RunKeepsInv(w4, c);
    NextKeepsInv(w5, Subscribed);
    RunKeepsInv(w6, d);
    NextKeepsInv(w7, Deliver);
  }

  /** A reconnect loses nothing if and only if, when the server answered, everything missed had committed
      and was at most one page, nothing was published to the organisation from then until the subscription,
      and nothing after it was kept from the channel before the first live event. */
  lemma ReconnectIsGaplessIff(w: World, k: nat, a: seq<Action>, b: seq<Action>, c: seq<Action>, d: seq<Action>)
    requires Inv(w) && w.call.Fetching? && Window(w, k)
    requires Quiet(a) && Quiet(b) && Quiet(c) && Quiet(d) && Heard(d, w.org)
    requires Fits(Run(w, ReconnectSchedule(a, b, c, d)))
    ensures Run(w, a).call.Fetching?
    ensures IsStretch(Run(w, ReconnectSchedule(a, b, c, d)))
       <==> AnswersAll(Run(w, a)) && Posts(b, w.org) + Posts(c, w.org) + Unheard(d, w.org) == 0
  {
    ReconnectedIsARun(w, a, b, c, d);
    AtTheAnswer(w, k, a, b, c, d);
    ReconnectedIsGaplessIff(Run(w, a), k, b, c, d);
  }

  lemma AtTheAnswer(w: World, k: nat, a: seq<Action>, b: seq<Action>, c: seq<Action>, d: seq<Action>)
    requires Inv(w) && w.call.Fetching? && Window(w, k) && Quiet(a)
    requires Fits(Run(w, ReconnectSchedule(a, b, c, d)))
    ensures var v := Run(w, a); Inv(v) && v.call == w.call && v.org == w.org && Window(v, k)
  {
    FitsAfter(w, a, b, c, d);
    RunKeepsInv(w, a);
    QuietRun(w, a);
    WindowStays(w, Run(w, a), k);
  }

  lemma FitsAfter(w: World, a: seq<Action>, b: seq<Action>, c: seq<Action>, d: seq<Action>)
    requires Inv(w) && Fits(Run(w, ReconnectSchedule(a, b, c, d)))
    ensures Fits(Run(w, a))
  {
    var rest := [ServerAnswers] + b + [ReplayArrives] + c + [Subscribed] + d + [Deliver];
    assert ReconnectSchedule(a, b, c, d) == a + rest;
    RunConcat(w, a, rest);
    FitsThroughout(Run(w, a), rest);
  }

  /** What the client ends up with: the answer, then the event after the `missed` ones. */
  ghost predicate EndsUp(w: World, v: World, missed: nat)
    requires w.call.Fetching?
  {
    && Mine(w) <= Mine(v) && AllDiffer(Mine(v)) && |Mine(w)| + missed < |Mine(v)|
    && v.client.log == w.client.log + Next(w, ServerAnswers).call.rows + [Mine(v)[|Mine(w)| + missed]]
  }

  lemma ReconnectedIsGaplessIff(w: World, k: nat, b: seq<Action>, c: seq<Action>, d: seq<Action>)
    requires Inv(w) && w.call.Fetching? && Window(w, k)
    requires Quiet(b) && Quiet(c) && Quiet(d) && Heard(d, w.org)
    requires Fits(Reconnected(w, b, c, d))
    ensures IsStretch(Reconnected(w, b, c, d))
       <==> AnswersAll(w) && Posts(b, w.org) + Posts(c, w.org) + Unheard(d, w.org) == 0
  {
    ReconnectedEndsUp(w, b, c, d);
    GaplessIff(w, k, Reconnected(w, b, c, d), Posts(b, w.org) + Posts(c, w.org) + Unheard(d, w.org));
  }

  lemma ReconnectedEndsUp(w: World, b: seq<Action>, c: seq<Action>, d: seq<Action>)
    requires Inv(w) && w.call.Fetching? && Quiet(b) && Quiet(c) && Quiet(d) && Heard(d, w.org)
    requires Fits(Reconnected(w, b, c, d))
    ensures Fits(w)
    ensures EndsUp(w, Reconnected(w, b, c, d), Posts(b, w.org) + Posts(c, w.org) + Unheard(d, w.org))
  {
    InvThroughout(w, b, c, d);
    ReconnectedLog(w, b, c, d);
    MineIsDistinct(Reconnected(w, b, c, d));
  }

  lemma GaplessIff(w: World, k: nat, v: World, missed: nat)
    requires Inv(w) && Fits(w) && w.call.Fetching? && Window(w, k) && EndsUp(w, v, missed)
    ensures IsStretch(v) <==> AnswersAll(w) && missed == 0
  {
    AnswerIsRestIff(w, k);
    GaplessAfterIff(w, k, Next(w, ServerAnswers).call.rows, v, missed);
  }

  lemma GaplessAfterIff(w: World, k: nat, rows: seq<Event>, v: World, missed: nat)
    requires w.call.Fetching? && rows == Next(w, ServerAnswers).call.rows && EndsUp(w, v, missed)
    requires IsPartAt(w.client.log, Mine(w), k) && w.client.log != [] && forall r :: r in rows ==> r in Mine(w)
    ensures IsStretch(v) <==> rows == Mine(w)[k + |w.client.log|..] && missed == 0
  {
    StretchAfterIff(Mine(w), Mine(v), w.client.log, rows, k, |Mine(w)| + missed, v.client.log);
  }

  /** Once the log is no stretch of the organisation's events, it never is again. */
  lemma GapsAreForever(w: World, rest: seq<Action>)
    requires Inv(w) && Fits(Run(w, rest)) && !IsStretch(w)
    ensures !IsStretch(Run(w, rest))
  {
    var v := Run(w, rest);
    RunKeepsInv(w, rest);
    MineExtends(w, v);
    MineIsDistinct(v);
    LogIsMine(w);
    if IsStretch(v) {
      StretchOfPrefix(Mine(w), Mine(v), w.client.log, v.client.log);
    }
  }

  lemma LogIsMine(w: World)
    requires Inv(w)
    ensures forall e :: e in w.client.log ==> e in Mine(w)
  {
    LogInOrder(w);
    FilterMembers((e: Event) => e.org == w.org, w.outbox);
  }

  lemma MineExtends(w: World, v: World)
    requires w.outbox <= v.outbox && v.org == w.org
    ensures Mine(w) <= Mine(v)
  {
    assert v.outbox == w.outbox + v.outbox[|w.outbox|..];
    FilterConcat((e: Event) => e.org == w.org, w.outbox, v.outbox[|w.outbox|..]);
  }

  lemma StretchOfPrefix<T(!new)>(some: seq<T>, all: seq<T>, log: seq<T>, longer: seq<T>)
    requires some <= all && log <= longer && IsPart(longer, all) && AllDiffer(all)
    requires forall x :: x in log ==> x in some
    ensures IsPart(log, some)
  {
    var j: nat :| IsPartAt(longer, all, j);
    if log == [] {
      assert IsPartAt(log, some, 0);
    } else {
      var n := |log|;
      assert log[n - 1] == longer[n - 1] == all[j..j + |longer|][n - 1] == all[j + n - 1];
      assert log[n - 1] in log;
      var i :| 0 <= i < |some| && some[i] == log[n - 1];
      assert all[i] == some[i];
      assert i == j + n - 1;
      assert some[j..j + n] == all[j..j + n] == all[j..j + |longer|][..n] == log;
      assert IsPartAt(log, some, j);
    }
  }

  /** What is published to the organisation between the answer and the first live event is never dispatched. */
  lemma MissedAreLost(w: World, b: seq<Action>, c: seq<Action>, d: seq<Action>, i: nat, rest: seq<Action>)
    requires Inv(w) && w.call.Fetching? && Quiet(b) && Quiet(c) && Quiet(d) && Heard(d, w.org)
    requires Fits(Run(Reconnected(w, b, c, d), rest))
    requires |Mine(w)| <= i < |Mine(w)| + Posts(b, w.org) + Posts(c, w.org) + Unheard(d, w.org)
    ensures i < |Mine(Reconnected(w, b, c, d))|
    ensures Mine(Reconnected(w, b, c, d))[i] !in Run(Reconnected(w, b, c, d), rest).client.log
  {
    var v := Reconnected(w, b, c, d);
    FitsThroughout(v, rest);
    InvThroughout(w, b, c, d);
    ReconnectedEndsUp(w, b, c, d);
    SentIsOld(w);
    LostForGood(w, v, Posts(b, w.org) + Posts(c, w.org) + Unheard(d, w.org), i, rest);
  }

  lemma LostForGood(w: World, v: World, missed: nat, i: nat, rest: seq<Action>)
    requires w.call.Fetching? && EndsUp(w, v, missed) && Inv(v) && Fits(Run(v, rest))
    requires forall e :: e in w.client.log + Next(w, ServerAnswers).call.rows ==> e in Mine(w)
    requires |Mine(w)| <= i < |Mine(w)| + missed
    ensures Mine(v)[i] !in Run(v, rest).client.log
  {
    var e, last := Mine(v)[i], Mine(v)[|Mine(w)| + missed];
    FilterAscends((e: Event) => e.org == v.org, v.outbox);
    assert Before(e, last);
    assert e !in Mine(w);
    assert e !in v.client.log;
    SkippedIsLost(v, e, rest);
  }
}

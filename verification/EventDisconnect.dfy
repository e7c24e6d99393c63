/** What `disconnect` is worth: it lasts exactly if no `connect` is waiting for its replay. */
module EventDisconnect {
  import opened Base
  import opened EventReplay
  import opened EventClient
  import opened EventRuns
  import opened EventTheorems

  /** Nobody calls `connect`; whatever is pending may go on. */
  predicate NoConnect(s: seq<Action>) {
    forall i :: 0 <= i < |s| ==> !s[i].Connect?
  }

  lemma NextKeepsSound(w: World, a: Action)
    requires Sound(w.client)
    ensures Sound(Next(w, a).client)
  {
    match a
    case Connect => HandleKeepsSound(w.client, Connects);
    case TimerFires(id) => HandleKeepsSound(w.client, TimeoutRuns(id));
    case ReplayFails => HandleKeepsSound(w.client, Resumes(None));
    case ReplayArrives => if w.call.Answered? { HandleKeepsSound(w.client, Resumes(Some(w.call.rows))); }
    case Deliver => if w.link.Up? && w.link.queue != [] { DispatchKeepsSound(w.client, w.link.queue[0]); }
    case Error => HandleKeepsSound(w.client, Breaks);
    case Disconnect => HandleKeepsSound(w.client, Disconnects);
    case _ =>
  }

  lemma {:induction false} RunKeepsSound(w: World, s: seq<Action>)
    requires Sound(w.client)
    ensures Sound(Run(w, s).client)
    decreases |s|
  {
    if s != [] {
      NextKeepsSound(w, s[0]);
      RunKeepsSound(Next(w, s[0]), s[1..]);
    }
  }

  /** Closed, with nothing pending that could open it. */
  predicate AtRest(w: World) {
    !w.client.open && w.client.timeouts == {} && w.call == NoCall && w.link == Down
  }

  lemma {:induction false} RestLasts(w: World, rest: seq<Action>)
    requires AtRest(w) && NoConnect(rest)
    ensures AtRest(Run(w, rest)) && Run(w, rest).client.log == w.client.log
    decreases |rest|
  {
    if rest != [] {
      assert AtRest(Next(w, rest[0])) && Next(w, rest[0]).client.log == w.client.log;
      RestLasts(Next(w, rest[0]), rest[1..]);
    }
  }

  /** Whatever happens next without a call of `connect`, the stream stays closed and nothing is dispatched. */
  ghost predicate StaysClosed(w: World) {
    forall rest :: NoConnect(rest) ==> !Run(w, rest).client.open && Run(w, rest).client.log == w.client.log
  }

  /** The stream may open again although nobody calls `connect`. */
  ghost predicate CanReopen(w: World) {
    exists rest :: NoConnect(rest) && Run(w, rest).client.open
  }

  /** After any run, `disconnect` closes the stream for good, until `connect` is called, if and only if no
      `connect` is waiting for its replay; otherwise that one can open it again. */
  lemma DisconnectLastsIff(now: nat, org: nat, schedule: seq<Action>)
    ensures var w := Run(Start(now, org), schedule);
      && (StaysClosed(Next(w, Disconnect)) <==> w.call == NoCall)
      && (CanReopen(Next(w, Disconnect)) <==> w.call != NoCall)
  {
    var w := Run(Start(now, org), schedule);
    RunKeepsSound(Start(now, org), schedule);
    DisconnectedIff(w);
  }

  lemma DisconnectedIff(w: World)
    requires Sound(w.client)
    ensures StaysClosed(Next(w, Disconnect)) <==> w.call == NoCall
    ensures CanReopen(Next(w, Disconnect)) <==> w.call != NoCall
  {
    var v := Next(w, Disconnect);
    if w.call == NoCall {
      assert AtRest(v);
      forall rest | NoConnect(rest) ensures !Run(v, rest).client.open && Run(v, rest).client.log == v.client.log {
        RestLasts(v, rest);
      }
    } else {
      var rest := [ReplayFails];
      assert Run(v, []) == v;
      RunSnoc(v, [], ReplayFails);
      assert [] + [ReplayFails] == rest;
      assert NoConnect(rest) && Run(v, rest).client.open;
    }
  }

  /** Runs do reach a `connect` that waits and survives `disconnect`. */
  lemma DisconnectCanFail(now: nat, org: nat, p: Action) returns (schedule: seq<Action>)
    requires p.Publish? && p.to == org && p.channelUp
    ensures !Run(Start(now, org), schedule + [Disconnect]).client.open
    ensures CanReopen(Run(Start(now, org), schedule + [Disconnect]))
  {
    schedule := RequestIsReachable(now, org, p);
    RunSnoc(Start(now, org), schedule, Disconnect);
    DisconnectLastsIff(now, org, schedule);
  }
}

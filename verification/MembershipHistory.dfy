/** What became of a read between the moment it was made and the commit that relies on it: of a
    membership that was found, of an authority that was checked, and of an expiry that was met. */
module MembershipHistory {
  import opened Base
  import opened Membership
  import opened MembershipSafety
  import opened MembershipTheorems

  // ----- What is held until it is taken -----

  /** Step `j` leads from `held(j)` to `held(j + 1)`; only giving and taking change it. */
  ghost predicate Step(held: nat -> bool, gives: nat -> bool, takes: nat -> bool, j: nat) {
    && (takes(j) ==> !held(j + 1))
    && (gives(j) ==> held(j + 1))
    && (!takes(j) && !gives(j) ==> (held(j + 1) <==> held(j)))
  }

  ghost predicate Tracks(held: nat -> bool, gives: nat -> bool, takes: nat -> bool, k: nat, n: nat) {
    forall j :: k <= j < n ==> Step(held, gives, takes, j)
  }

  ghost predicate GivenBack(gives: nat -> bool, j: nat, n: nat) {
    exists i :: j < i < n && gives(i)
  }

  /** Whatever was taken was given back later. */
  ghost predicate Restored(gives: nat -> bool, takes: nat -> bool, k: nat, n: nat) {
    forall j :: k <= j < n && takes(j) ==> GivenBack(gives, j, n)
  }

  lemma {:induction false} HeldIff(held: nat -> bool, gives: nat -> bool, takes: nat -> bool, k: nat, n: nat)
    requires k <= n && held(k) && Tracks(held, gives, takes, k, n)
    ensures held(n) <==> Restored(gives, takes, k, n)
    decreases n
  {
    if k < n {
      var m := n - 1;
      assert Step(held, gives, takes, m);
      HeldIff(held, gives, takes, k, m);
      forall j | k <= j < m ensures GivenBack(gives, j, n) <==> GivenBack(gives, j, m) || gives(m) {
        if GivenBack(gives, j, m) {
          var i :| j < i < m && gives(i);
        }
      }
      assert !GivenBack(gives, m, n);
    }
  }

  // ----- Memberships -----

  ghost predicate HasMember(db: Tables, user: Id, org: Id) {
    exists m :: IsMember(db, m, user, org)
  }

  ghost predicate Joins(db: Tables, e: Event, user: Id, org: Id) {
    || (e.Registered? && e.user == user && e.org == org)
    || (e.Accepted? && e.join.Inserted? && e.user == user
        && e.token in db.invites && db.invites[e.token].org == org)
  }

  ghost predicate Leaves(db: Tables, e: Event, user: Id, org: Id) {
    e.Removed? && IsMember(db, e.mid, user, org)
  }

  lemma MembershipStep(db: Tables, e: Event, user: Id, org: Id)
    requires DbOk(db) && Permitted(db, e)
    ensures Leaves(db, e, user, org) ==> !HasMember(Apply(db, e), user, org)
    ensures Joins(db, e, user, org) ==> HasMember(Apply(db, e), user, org)
    ensures !Leaves(db, e, user, org) && !Joins(db, e, user, org)
        ==> (HasMember(Apply(db, e), user, org) <==> HasMember(db, user, org))
  {
    var after := Apply(db, e);
    if e.Registered? || (e.Accepted? && e.join.Inserted?) {
      var mid := if e.Registered? then e.mid else e.join.mid;
      assert mid in after.members;
      assert Joins(db, e, user, org) <==> IsMember(after, mid, user, org);
      assert forall m :: m != mid ==> (IsMember(after, m, user, org) <==> IsMember(db, m, user, org));
      assert mid !in db.members;
    } else if e.Removed? {
      assert forall m :: IsMember(after, m, user, org) <==> IsMember(db, m, user, org) && m != e.mid;
    } else {
      assert forall m :: IsMember(after, m, user, org) <==> IsMember(db, m, user, org);
    }
  }

  ghost function MemberAt(log: seq<Event>, user: Id, org: Id): nat -> bool {
    (j: nat) => j <= |log| && HasMember(Replay(log[..j]), user, org)
  }

  ghost function JoinsAt(log: seq<Event>, user: Id, org: Id): nat -> bool {
    (j: nat) => j < |log| && Joins(Replay(log[..j]), log[j], user, org)
  }

  ghost function LeavesAt(log: seq<Event>, user: Id, org: Id): nat -> bool {
    (j: nat) => j < |log| && Leaves(Replay(log[..j]), log[j], user, org)
  }

  /** Every removal of the user's membership among the events `k..n` is followed by another that
      makes the user a member again. */
  ghost predicate MembershipRestored(log: seq<Event>, k: nat, n: nat, user: Id, org: Id) {
    Restored(JoinsAt(log, user, org), LeavesAt(log, user, org), k, n)
  }

  lemma LegalAt(log: seq<Event>, j: nat)
    requires LegalLog(log) && j < |log|
    ensures DbOk(Replay(log[..j])) && Permitted(Replay(log[..j]), log[j])
    ensures Replay(log[..j + 1]) == Apply(Replay(log[..j]), log[j])
  {
    assert Legal(log[..j], log[j]);
    LegalPrefix(log, j);
    LegalLogDbOk(log[..j]);
    ReplayPrefix(log, j);
  }

  lemma MembershipAt(log: seq<Event>, j: nat, user: Id, org: Id)
    requires LegalLog(log) && j < |log|
    ensures Step(MemberAt(log, user, org), JoinsAt(log, user, org), LeavesAt(log, user, org), j)
  {
    LegalAt(log, j);
    MembershipStep(Replay(log[..j]), log[j], user, org);
  }

  lemma MemberStillIff(log: seq<Event>, k: nat, n: nat, user: Id, org: Id)
    requires LegalLog(log) && k <= n <= |log| && MemberAt(log, user, org)(k)
    ensures MemberAt(log, user, org)(n) <==> MembershipRestored(log, k, n, user, org)
  {
    forall j | k <= j < n
      ensures Step(MemberAt(log, user, org), JoinsAt(log, user, org), LeavesAt(log, user, org), j)
    {
      MembershipAt(log, j, user, org);
    }
    HeldIff(MemberAt(log, user, org), JoinsAt(log, user, org), LeavesAt(log, user, org), k, n);
  }

  /** A committed acceptance leaves its user a membership of the organisation if and only if it
      inserted one, or every removal since it found one was followed by another insertion. */
  lemma AcceptanceLeavesMembershipIff(schedule: seq<Action>, i: nat)
    requires i < |Run(Init(true), schedule).log| && Run(Init(true), schedule).log[i].Accepted?
    ensures var log := Run(Init(true), schedule).log;
            var e := log[i];
            && e.token in Replay(log[..i]).invites
            && (e.join.Existing? ==> e.join.seenAt <= i)
            && var org := Replay(log[..i]).invites[e.token].org;
               (HasMember(Replay(log[..i + 1]), e.user, org)
                <==> e.join.Inserted? || MembershipRestored(log, e.join.seenAt, i, e.user, org))
  {
    RunKeepsInv(schedule);
    var log := Run(Init(true), schedule).log;
    AcceptanceInLog(log, i);
  }

  lemma AcceptanceInLog(log: seq<Event>, i: nat)
    requires LegalLog(log) && i < |log| && log[i].Accepted?
    ensures var e := log[i];
            && e.token in Replay(log[..i]).invites
            && (e.join.Existing? ==> e.join.seenAt <= i)
            && var org := Replay(log[..i]).invites[e.token].org;
               (HasMember(Replay(log[..i + 1]), e.user, org)
                <==> e.join.Inserted? || MembershipRestored(log, e.join.seenAt, i, e.user, org))
  {
    var e := log[i];
    assert Legal(log[..i], e);
    var org := Replay(log[..i]).invites[e.token].org;
    MembershipAt(log, i, e.user, org);
    if e.join.Existing? {
      var k := e.join.seenAt;
      assert log[..i][..k] == log[..k];
      assert IsMember(Replay(log[..k]), e.join.mid, e.user, org);
      MemberStillIff(log, k, i, e.user, org);
    }
  }

  // ----- Authority -----

  ghost predicate HasAuthority(db: Tables, actor: Id, org: Id) {
    exists m :: IsMember(db, m, actor, org) && MayAdminister(db.members[m].role)
  }

  ghost predicate Grants(db: Tables, e: Event, actor: Id, org: Id) {
    || (Joins(db, e, actor, org) && (e.Registered? || MayAdminister(db.invites[e.token].role)))
    || (e.RoleChanged? && IsMember(db, e.mid, actor, org) && MayAdminister(e.to))
  }

  ghost predicate Withdraws(db: Tables, e: Event, actor: Id, org: Id) {
    || Leaves(db, e, actor, org)
    || (e.RoleChanged? && IsMember(db, e.mid, actor, org) && !MayAdminister(e.to))
  }

  lemma AuthorityStep(db: Tables, e: Event, actor: Id, org: Id)
    requires DbOk(db) && Permitted(db, e)
    ensures Withdraws(db, e, actor, org) ==> !HasAuthority(Apply(db, e), actor, org)
    ensures Grants(db, e, actor, org) ==> HasAuthority(Apply(db, e), actor, org)
    ensures !Withdraws(db, e, actor, org) && !Grants(db, e, actor, org)
        ==> (HasAuthority(Apply(db, e), actor, org) <==> HasAuthority(db, actor, org))
  {
    var after := Apply(db, e);
    if e.Registered? || (e.Accepted? && e.join.Inserted?) {
      var mid := if e.Registered? then e.mid else e.join.mid;
      assert mid in after.members && mid !in db.members;
      assert Joins(db, e, actor, org) <==> IsMember(after, mid, actor, org);
      assert forall m :: m != mid ==> (IsMember(after, m, actor, org) <==> IsMember(db, m, actor, org));
      assert forall m :: m in db.members ==> after.members[m] == db.members[m];
    } else if e.Removed? {
      assert forall m :: IsMember(after, m, actor, org) <==> IsMember(db, m, actor, org) && m != e.mid;
    } else {
      assert forall m :: IsMember(after, m, actor, org) <==> IsMember(db, m, actor, org);
      assert e.RoleChanged? ==> e.mid in after.members && after.members[e.mid].role == e.to;
    }
  }

  ghost function AuthorityAt(log: seq<Event>, actor: Id, org: Id): nat -> bool {
    (j: nat) => j <= |log| && HasAuthority(Replay(log[..j]), actor, org)
  }

  ghost function GrantsAt(log: seq<Event>, actor: Id, org: Id): nat -> bool {
    (j: nat) => j < |log| && Grants(Replay(log[..j]), log[j], actor, org)
  }

  ghost function WithdrawsAt(log: seq<Event>, actor: Id, org: Id): nat -> bool {
    (j: nat) => j < |log| && Withdraws(Replay(log[..j]), log[j], actor, org)
  }

  /** Every withdrawal of the actor's authority among the events `k..n` is followed by a grant. */
  ghost predicate AuthorityRestored(log: seq<Event>, k: nat, n: nat, actor: Id, org: Id) {
    Restored(GrantsAt(log, actor, org), WithdrawsAt(log, actor, org), k, n)
  }

  lemma AuthorityStepAt(log: seq<Event>, j: nat, actor: Id, org: Id)
    requires LegalLog(log) && j < |log|
    ensures Step(AuthorityAt(log, actor, org), GrantsAt(log, actor, org), WithdrawsAt(log, actor, org), j)
  {
    LegalAt(log, j);
    AuthorityStep(Replay(log[..j]), log[j], actor, org);
  }

  lemma AuthorityStillIff(log: seq<Event>, k: nat, n: nat, actor: Id, org: Id)
    requires LegalLog(log) && k <= n <= |log| && AuthorityAt(log, actor, org)(k)
    ensures AuthorityAt(log, actor, org)(n) <==> AuthorityRestored(log, k, n, actor, org)
  {
    forall j | k <= j < n
      ensures Step(AuthorityAt(log, actor, org), GrantsAt(log, actor, org), WithdrawsAt(log, actor, org), j)
    {
      AuthorityStepAt(log, j, actor, org);
    }
    HeldIff(AuthorityAt(log, actor, org), GrantsAt(log, actor, org), WithdrawsAt(log, actor, org), k, n);
  }

  /** Whoever creates or revokes an invitation was owner or administrator when checked, and still is at
      the commit if and only if every withdrawal of that authority in between was followed by a grant. */
  lemma InvitersWereAuthorized(schedule: seq<Action>, i: nat)
    requires i < |Run(Init(true), schedule).log|
    requires var e := Run(Init(true), schedule).log[i]; e.Created? || e.Revoked?
    ensures var log := Run(Init(true), schedule).log;
            var e := log[i];
            && e.chk.seenAt <= i
            && HasAuthority(Replay(log[..e.chk.seenAt]), e.actor, e.org)
            && (HasAuthority(Replay(log[..i]), e.actor, e.org)
                <==> AuthorityRestored(log, e.chk.seenAt, i, e.actor, e.org))
  {
    RunKeepsInv(schedule);
    var log := Run(Init(true), schedule).log;
    var e := log[i];
    assert Legal(log[..i], e);
    assert log[..i][..e.chk.seenAt] == log[..e.chk.seenAt];
    assert IsMember(Replay(log[..e.chk.seenAt]), e.chk.am, e.actor, e.org);
    AuthorityStillIff(log, e.chk.seenAt, i, e.actor, e.org);
  }

  // ----- Time -----

  function TickOf(a: Action): nat { if a.Tick? then a.d else 0 }

  /** How far the clock moves. */
  function Ticks(schedule: seq<Action>): nat {
    if schedule == [] then 0 else Ticks(schedule[..|schedule| - 1]) + TickOf(schedule[|schedule| - 1])
  }

  lemma NextTicks(s: State, a: Action)
    ensures Next(s, a).now == s.now + TickOf(a)
  {
  }

  lemma {:induction false} RunTicks(s: State, schedule: seq<Action>)
    ensures Run(s, schedule).now == s.now + Ticks(schedule)
  {
    if schedule != [] {
      RunTicks(s, schedule[..|schedule| - 1]);
      NextTicks(Run(s, schedule[..|schedule| - 1]), schedule[|schedule| - 1]);
    }
  }

  lemma ClockTicks(s: State, schedule: seq<Action>, p: nat)
    requires p <= |schedule|
    ensures Run(s, schedule).now == Run(s, schedule[..p]).now + Ticks(schedule[p..])
  {
    assert schedule == schedule[..p] + schedule[p..];
    RunConcat(s, schedule[..p], schedule[p..]);
    RunTicks(Run(s, schedule[..p]), schedule[p..]);
  }

  /** The transaction is there, with this request and start time. */
  ghost predicate Carries(s: State, t: Id, req: Request, at: int) {
    t in s.txns && s.txns[t].req == req && s.txns[t].at == at
  }

  lemma TxnKeeps(s: State, a: Action, t: Id, req: Request, at: int)
    requires Carries(Next(s, a), t, req, at)
    ensures Carries(s, t, req, at) || (t !in s.txns && a == Begin(t, req) && at == s.now)
  {
  }

  /** A running transaction began at some point, with the clock value it carries. */
  lemma {:induction false} BeganAt(s: State, schedule: seq<Action>, t: Id, req: Request, at: int) returns (p: nat)
    requires s.txns == map[] && Carries(Run(s, schedule), t, req, at)
    ensures p < |schedule| && schedule[p] == Begin(t, req) && Run(s, schedule[..p]).now == at
    ensures t !in Run(s, schedule[..p]).txns
    ensures forall m :: p < m <= |schedule| ==> Carries(Run(s, schedule[..m]), t, req, at)
  {
    var n := |schedule| - 1;
    var front := schedule[..n];
    TxnKeeps(Run(s, front), schedule[n], t, req, at);
    assert schedule[..n + 1] == schedule;
    if Carries(Run(s, front), t, req, at) {
      p := BeganAt(s, front, t, req, at);
      assert forall m :: 0 <= m <= n ==> front[..m] == schedule[..m];
    } else {
      p := n;
    }
  }

  lemma LogKeeps(s: State, a: Action)
    ensures (Next(s, a).log == s.log && Next(s, a).times == s.times)
         || (a.Advance? && a.t in s.txns && Decide(s, a.t).Commit?
             && Next(s, a).log == s.log + [Decide(s, a.t).event] && Next(s, a).times == s.times + [s.now])
  {
  }

  /** The action that committed event `j`. */
  lemma {:induction false} CommittedAt(s: State, schedule: seq<Action>, j: nat) returns (q: nat)
    requires s.log == [] && s.times == [] && j < |Run(s, schedule).log|
    ensures |Run(s, schedule).times| == |Run(s, schedule).log|
    ensures var end := Run(s, schedule);
      && q < |schedule| && schedule[q].Advance? && |Run(s, schedule[..q]).log| == j
      && var before := Run(s, schedule[..q]);
         && schedule[q].t in before.txns
         && Decide(before, schedule[q].t) == Commit(end.log[j])
         && end.times[j] == before.now
  {
    var n := |schedule| - 1;
    TimesMatch(s, schedule);
    TimesMatch(s, schedule[..n]);
    LogKeeps(Run(s, schedule[..n]), schedule[n]);
    if j < |Run(s, schedule[..n]).log| {
      q := CommittedAt(s, schedule[..n], j);
      assert schedule[..n][..q] == schedule[..q];
    } else {
      q := n;
    }
  }

  lemma {:induction false} TimesMatch(s: State, schedule: seq<Action>)
    requires s.log == [] && s.times == []
    ensures |Run(s, schedule).times| == |Run(s, schedule).log|
  {
    if schedule != [] {
      TimesMatch(s, schedule[..|schedule| - 1]);
      LogKeeps(Run(s, schedule[..|schedule| - 1]), schedule[|schedule| - 1]);
    }
  }

  lemma AcceptedByItsRequest(s: State, t: Id, e: Event)
    requires t in s.txns && Decide(s, t) == Commit(e) && e.Accepted?
    ensures s.txns[t].req.Accept? && s.txns[t].req.token == e.token && s.txns[t].at == e.at
  {
  }

  /** A committed acceptance began at action `p` with the clock at its `at`, and committed at action `q`.
      It was decided before the invitation expired, and it commits before the expiry if and only if the
      clock ticked, in between, by less than what was left. */
  lemma AcceptanceInTimeIff(schedule: seq<Action>, j: nat) returns (p: nat, q: nat)
    requires j < |Run(Init(true), schedule).log| && Run(Init(true), schedule).log[j].Accepted?
    ensures var s := Run(Init(true), schedule);
      var e := s.log[j];
      && p < q < |schedule|
      && schedule[p].Begin? && schedule[p].req.Accept? && schedule[p].req.token == e.token
      && schedule[q] == Advance(schedule[p].t)
      && e.token in Replay(s.log[..j]).invites && |s.times| == |s.log|
      && e.at == Run(Init(true), schedule[..p]).now
      && s.times[j] == Run(Init(true), schedule[..q]).now == e.at + Ticks(schedule[p..q])
      && var expires := Replay(s.log[..j]).invites[e.token].expires;
         && e.at < expires && e.at <= s.times[j]
         && (s.times[j] < expires <==> Ticks(schedule[p..q]) < expires - e.at)
  {
    var s := Run(Init(true), schedule);
    RunKeepsInv(schedule);
    assert Legal(s.log[..j], s.log[j]);
    q := CommittedAt(Init(true), schedule, j);
    var t := schedule[q].t;
    AcceptedByItsRequest(Run(Init(true), schedule[..q]), t, s.log[j]);
    p := BeganAt(Init(true), schedule[..q], t, Run(Init(true), schedule[..q]).txns[t].req, s.log[j].at);
    assert schedule[..q][..p] == schedule[..p];
    ClockTicks(Init(true), schedule[..q], p);
    assert schedule[..q][p..] == schedule[p..q];
  }
}

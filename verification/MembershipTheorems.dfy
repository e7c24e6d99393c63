/** What the membership protocol guarantees over every schedule, and where it does not. */
module MembershipTheorems {
  import opened Base
  import opened Membership
  import opened MembershipSafety

  // ----- Guarantees over all schedules -----

  /** The committed tables are those of running the committed transactions one at a time, and each of
      them was permitted at its turn. No role change and no removal relies on a role the actor had lost
      or on an owner count that was out of date; creating and revoking an invitation rely on the check
      made before any lock (see `MembershipHistory.InvitersWereAuthorized`). */
  lemma Serializable(schedule: seq<Action>)
    ensures var s := Run(Init(true), schedule);
            s.db == Replay(s.log) && LegalLog(s.log)
  {
    RunKeepsInv(schedule);
  }

  lemma {:induction false} RegisteredOrgsStay(log: seq<Event>, i: nat)
    requires i < |log| && log[i].Registered?
    ensures log[i].org in Replay(log).orgs
  {
    if i < |log| - 1 {
      RegisteredOrgsStay(log[..|log| - 1], i);
    }
  }

  /** In every reachable state a registered organisation has a committed owner. */
  lemma EveryOrgAlwaysHasAnOwner(schedule: seq<Action>, i: nat)
    requires i < |Run(Init(true), schedule).log| && Run(Init(true), schedule).log[i].Registered?
    ensures var s := Run(Init(true), schedule);
            s.log[i].org in s.db.orgs
            && (exists m :: m in s.db.members && s.db.members[m].org == s.log[i].org && s.db.members[m].role == Owner)
            && OneMembershipEach(s.db)
  {
    var s := Run(Init(true), schedule);
    RunKeepsInv(schedule);
    LegalLogDbOk(s.log);
    RegisteredOrgsStay(s.log, i);
    var m :| m in Owners(s.db, s.log[i].org);
  }

  /** Every committed role change and removal was the act of an owner or administrator at its turn, of an
      owner where ownership is concerned, and took no organisation's last owner. */
  lemma ChangesAreAuthorized(schedule: seq<Action>, i: nat)
    requires i < |Run(Init(true), schedule).log|
    requires var e := Run(Init(true), schedule).log[i]; e.RoleChanged? || e.Removed?
    ensures var log := Run(Init(true), schedule).log;
            MayChange(Replay(log[..i]), log[i].actor, log[i].am, log[i].org, log[i].mid, log[i].from,
                      if log[i].RoleChanged? then Some(log[i].to) else None)
  {
    RunKeepsInv(schedule);
    var log := Run(Init(true), schedule).log;
    assert Legal(log[..i], log[i]);
  }

  /** Event `i` made `m` an owner: its user registered the organisation, or an owner of that
      moment promoted it. */
  ghost predicate MadeOwner(log: seq<Event>, i: nat, m: Id, row: Row)
    requires i < |log|
  {
    var e := log[i];
    || (e.Registered? && e.mid == m && e.user == row.user && e.org == row.org)
    || (e.RoleChanged? && e.mid == m && e.to == Owner && e.org == row.org
        && IsMember(Replay(log[..i]), e.am, e.actor, row.org)
        && Replay(log[..i]).members[e.am].role == Owner)
  }

  lemma {:induction false} OwnersWereMadeByOwners(log: seq<Event>, m: Id)
    requires LegalLog(log)
    requires m in Replay(log).members && Replay(log).members[m].role == Owner
    ensures exists i: nat :: i < |log| && MadeOwner(log, i, m, Replay(log).members[m])
  {
    var n := |log| - 1;
    var front, e := log[..n], log[n];
    assert LegalLog(front) by {
      forall i | 0 <= i < n ensures Legal(front[..i], front[i]) {
        assert front[..i] == log[..i];
      }
    }
    LegalLogDbOk(front);
    assert Legal(log[..n], log[n]);
    var row := Replay(log).members[m];
    if m in Replay(front).members && Replay(front).members[m] == row {
      OwnersWereMadeByOwners(front, m);
      var i: nat :| i < n && MadeOwner(front, i, m, row);
      assert front[..i] == log[..i];
      assert MadeOwner(log, i, m, row);
    } else {
      assert MadeOwner(log, n, m, row);
    }
  }

  /** Over any run, ownership starts with the registering user and only passes on from owners. */
  lemma OwnershipIsInherited(schedule: seq<Action>, m: Id)
    requires m in Run(Init(true), schedule).db.members
    requires Run(Init(true), schedule).db.members[m].role == Owner
    ensures var s := Run(Init(true), schedule);
            exists i: nat :: i < |s.log| && MadeOwner(s.log, i, m, s.db.members[m])
  {
    RunKeepsInv(schedule);
    OwnersWereMadeByOwners(Run(Init(true), schedule).log, m);
  }

  // ----- Invitations -----

  ghost predicate Spends(e: Event, token: Id) {
    (e.Accepted? || e.Revoked?) && e.token == token
  }

  lemma LegalPrefix(log: seq<Event>, n: nat)
    requires LegalLog(log) && n <= |log|
    ensures LegalLog(log[..n])
  {
    forall i | 0 <= i < n ensures Legal(log[..n][..i], log[..n][i]) {
      assert log[..n][..i] == log[..i];
    }
  }

  lemma ReplayPrefix(log: seq<Event>, n: nat)
    requires n < |log|
    ensures Replay(log[..n + 1]) == Apply(Replay(log[..n]), log[n])
  {
    assert log[..n + 1] == log[..n] + [log[n]];
    ReplaySnoc(log[..n], log[n]);
  }

  ghost predicate Spent(db: Tables, token: Id) {
    token in db.invites && (db.invites[token].accepted.Some? || db.invites[token].revoked.Some?)
  }

  lemma SpentAfter(db: Tables, e: Event, token: Id)
    requires InvitesOk(db) && Permitted(db, e)
    requires Spent(db, token) || Spends(e, token)
    ensures Spent(Apply(db, e), token)
  {
  }

  lemma SpentStep(log: seq<Event>, j: nat, token: Id)
    requires LegalLog(log) && j < |log| && (Spent(Replay(log[..j]), token) || Spends(log[j], token))
    ensures Spent(Replay(log[..j + 1]), token)
  {
    ReplayPrefix(log, j);
    LegalPrefix(log, j);
    LegalLogDbOk(log[..j]);
    assert Legal(log[..j], log[j]);
    SpentAfter(Replay(log[..j]), log[j], token);
  }

  lemma {:induction false} SpentStaysSpent(log: seq<Event>, i: nat, j: nat, token: Id)
    requires LegalLog(log) && i < j <= |log| && Spends(log[i], token)
    ensures Spent(Replay(log[..j]), token)
    decreases j
  {
    if i < j - 1 {
      SpentStaysSpent(log, i, j - 1, token);
    }
    SpentStep(log, j - 1, token);
  }

  /** Once an acceptance or a revocation of a token has committed, no acceptance of it commits;
      and an acceptance is decided before the token expires. */
  lemma InvitationAcceptedAtMostOnce(schedule: seq<Action>, i: nat, j: nat)
    requires i < j < |Run(Init(true), schedule).log|
    requires Run(Init(true), schedule).log[j].Accepted?
    ensures var log := Run(Init(true), schedule).log;
            && !Spends(log[i], log[j].token)
            && log[j].token in Replay(log[..j]).invites
            && log[j].at < Replay(log[..j]).invites[log[j].token].expires
  {
    RunKeepsInv(schedule);
    var log := Run(Init(true), schedule).log;
    assert Legal(log[..j], log[j]);
    if Spends(log[i], log[j].token) {
      SpentStaysSpent(log, i, j, log[j].token);
    }
  }

  ghost predicate HasConsumed(x: Txn, token: Id) {
    && x.req.Accept? && x.req.token == token
    && (x.pc.Consumed? || x.pc.NeedUser? || x.pc.HasUser? || x.pc.NeedMember? || x.pc.Ready?)
  }

  lemma ConsumedTokenIsHeld(s: State, t: Id, u: Id, token: Id)
    requires Inv(s) && t in s.txns && u in s.txns && t != u && HasConsumed(s.txns[t], token)
    ensures !Free(s, u, TokenRow(token)) && Free(Next(s, Abort(t)), u, TokenRow(token))
    ensures TokenOk(s.db, s.txns[t], s.txns[t].pc.inv)
  {
    assert TxnOk(s.log, s.txns[t]);
    assert TokenRow(token) in Holds(true, s.txns[t]);
    forall v | v in s.txns && v != t ensures TokenRow(token) !in Holds(true, s.txns[v]) {
      assert Holds(true, s.txns[v]) !! Holds(true, s.txns[t]);
    }
  }

  /** `u` has asked to accept with the token that `t` has consumed and not yet committed. */
  ghost predicate Awaits(s: State, u: Id, t: Id) {
    && t in s.txns && u in s.txns && t != u
    && s.txns[u].req.Accept? && s.txns[u].pc == Start
    && HasConsumed(s.txns[t], s.txns[u].req.token)
  }

  /** A second acceptance has to wait for the first. */
  lemma SecondAcceptanceWaits(s: State, t: Id, u: Id)
    requires Inv(s) && Awaits(s, u, t)
    ensures Decide(s, u) == Block
  {
    ConsumedTokenIsHeld(s, t, u, s.txns[u].req.token);
  }

  /** A rollback changes no table and leaves the token to the acceptance that waited. */
  lemma RollbackLeavesTokenUsable(s: State, t: Id, u: Id, inv: Invite)
    requires Inv(s) && Awaits(s, u, t) && TokenOk(s.db, s.txns[t], inv)
    ensures Next(s, Abort(t)).db == s.db
    ensures var y := s.txns[u];
            Decide(Next(s, Abort(t)), u)
            == if y.at < inv.expires && Lower(inv.email) == Lower(y.req.email) then Goto(Consumed(inv)) else Fail
  {
    ConsumedTokenIsHeld(s, t, u, s.txns[u].req.token);
  }

  lemma RefusedOnceSpent(s: State, u: Id)
    requires u in s.txns && s.txns[u].req.Accept? && s.txns[u].pc == Start
    requires Free(s, u, TokenRow(s.txns[u].req.token)) && Spent(s.db, s.txns[u].req.token)
    ensures Decide(s, u) == Fail
  {
  }

  lemma FreeBySameTxns(s: State, s': State, u: Id, r: Resource)
    requires Free(s, u, r) && s'.txns == s.txns && s'.locking == s.locking
    ensures Free(s', u, r)
  {
  }

  lemma AcceptanceSpends(s: State, t: Id, token: Id)
    requires Inv(s) && t in s.txns && HasConsumed(s.txns[t], token) && Decide(s, t).Commit?
    ensures Next(s, Advance(t)).txns == Next(s, Abort(t)).txns
    ensures Spent(Next(s, Advance(t)).db, token)
  {
    assert TxnOk(s.log, s.txns[t]);
  }

  /** A commit refuses it. */
  lemma CommitRefusesSecondAcceptance(s: State, t: Id, u: Id)
    requires Inv(s) && Awaits(s, u, t) && Decide(s, t).Commit?
    ensures Decide(Next(s, Advance(t)), u) == Fail
  {
    var token, s' := s.txns[u].req.token, Next(s, Advance(t));
    ConsumedTokenIsHeld(s, t, u, token);
    AcceptanceSpends(s, t, token);
    FreeBySameTxns(Next(s, Abort(t)), s', u, TokenRow(token));
    RefusedOnceSpent(s', u);
  }

  lemma GoneAfter(db: Tables, e: Event, mid: Id)
    requires Permitted(db, e) && mid in db.issued && mid !in db.members
    ensures mid in Apply(db, e).issued && mid !in Apply(db, e).members
  {
  }

  lemma MemberAfter(db: Tables, e: Event, mid: Id, user: Id, org: Id)
    requires MembersOk(db) && Permitted(db, e) && IsMember(db, mid, user, org)
    ensures IsMember(Apply(db, e), mid, user, org) <==> !(e.Removed? && e.mid == mid)
    ensures mid in Apply(db, e).issued
  {
  }

  ghost predicate RemovesAmong(log: seq<Event>, k: nat, mid: Id) {
    exists i :: k <= i < |log| && log[i].Removed? && log[i].mid == mid
  }

  lemma RemovesSnoc(log: seq<Event>, k: nat, mid: Id)
    requires k < |log|
    ensures var n := |log| - 1;
            RemovesAmong(log, k, mid) <==> RemovesAmong(log[..n], k, mid) || (log[n].Removed? && log[n].mid == mid)
  {
  }

  lemma {:induction false} MemberUnlessRemoved(log: seq<Event>, k: nat, mid: Id, user: Id, org: Id)
    requires LegalLog(log) && k <= |log|
    requires IsMember(Replay(log[..k]), mid, user, org)
    ensures RemovesAmong(log, k, mid) ==> mid in Replay(log).issued && mid !in Replay(log).members
    ensures !RemovesAmong(log, k, mid) ==> IsMember(Replay(log), mid, user, org)
  {
    var n := |log| - 1;
    if k == |log| {
      assert log[..k] == log;
    } else {
      var front, e := log[..n], log[n];
      assert front[..k] == log[..k];
      LegalPrefix(log, n);
      assert Legal(front, e);
      LegalLogDbOk(front);
      MemberUnlessRemoved(front, k, mid, user, org);
      RemovesSnoc(log, k, mid);
      if RemovesAmong(front, k, mid) {
        GoneAfter(Replay(front), e, mid);
      } else {
        MemberAfter(Replay(front), e, mid, user, org);
      }
    }
  }

  /** A committed acceptance leaves its user the membership it inserted, with the invited role.
      Where it found one instead, that membership is left if and only if no removal of it
      committed between the read and the commit. */
  lemma AcceptanceLeavesMembership(schedule: seq<Action>, i: nat)
    requires i < |Run(Init(true), schedule).log| && Run(Init(true), schedule).log[i].Accepted?
    ensures var log := Run(Init(true), schedule).log;
            log[i].token in Replay(log[..i]).invites
    ensures var log := Run(Init(true), schedule).log;
            var e, db, inv := log[i], Replay(log[..i + 1]), Replay(log[..i]).invites[log[i].token];
            match e.join
            case Inserted(mid) => mid in db.members && db.members[mid] == Row(e.user, inv.org, inv.role)
            case Existing(mid, k) =>
              IsMember(db, mid, e.user, inv.org)
              <==> !RemovesAmong(log[..i], k, mid)
  {
    RunKeepsInv(schedule);
    var log := Run(Init(true), schedule).log;
    var e := log[i];
    assert Legal(log[..i], e);
    ReplayPrefix(log, i);
    if e.join.Existing? {
      assert log[..i][..e.join.seenAt] == log[..e.join.seenAt];
      LegalPrefix(log, i);
      MemberUnlessRemoved(log[..i], e.join.seenAt, e.join.mid, e.user, Replay(log[..i]).invites[e.token].org);
    }
  }

  // ----- Schedules that show what is not guaranteed -----

  function Repeat(t: Id, n: nat): seq<Action> {
    if n == 0 then [] else Repeat(t, n - 1) + [Advance(t)]
  }

  lemma {:induction false} RunConcat(s: State, a: seq<Action>, b: seq<Action>)
    ensures Run(s, a + b) == Run(Run(s, a), b)
  {
    if b == [] {
      assert a + b == a;
    } else {
      var n := |b| - 1;
      assert (a + b)[..|a + b| - 1] == a + b[..n];
      RunConcat(s, a, b[..n]);
    }
  }

  lemma RunSnoc(s: State, a: seq<Action>, x: Action)
    ensures Run(s, a + [x]) == Next(Run(s, a), x)
  {
  }

  lemma LookupIs(db: Tables, m: Id, user: Id, org: Id)
    requires OneMembershipEach(db) && IsMember(db, m, user, org)
    ensures Lookup(db, user, org) == Some(m)
  {
  }

  ghost predicate IsChange(req: Request, to: Option<Role>) {
    (req.Patch? && to == Some(req.role)) || (req.Remove? && to == None)
  }

  /** The change is permitted as it stands and nobody is in its way. */
  ghost predicate Unhindered(s: State, t: Id, am: Id, to: Option<Role>) {
    && t in s.txns && IsChange(s.txns[t].req, to)
    && OneMembershipEach(s.db)
    && var r := s.txns[t].req;
       && r.target in s.db.members
       && MayChange(s.db, r.actor, am, r.org, r.target, s.db.members[r.target].role, to)
       && (s.locking ==> Free(s, t, OrgRow(r.org)))
       && Free(s, t, MemberRow(r.target))
  }

  function PcAfter(am: Id, seenAt: nat, ar: Role, row: Row, n: nat): Pc {
    match n
    case 0 => Start
    case 1 => Prechecked(Check(am, seenAt))
    case 2 => Locked
    case 3 => Authorized(am, ar)
    case 4 => Targeted(am, ar, row)
    case 5 => Cleared(am, ar, row)
    case _ => Flushed(am, ar, row)
  }

  ghost function At(s: State, t: Id, am: Id, n: nat): State
    requires t in s.txns && (s.txns[t].req.Patch? || s.txns[t].req.Remove?)
    requires am in s.db.members && s.txns[t].req.target in s.db.members
  {
    var x := s.txns[t];
    s.(txns := s.txns[t := x.(pc := PcAfter(am, |s.log|, s.db.members[am].role, s.db.members[x.req.target], n))])
  }

  lemma StatementSucceeds(s: State, t: Id, x: Txn, am: Id, to: Option<Role>, n: nat)
    requires n < 6 && IsChange(x.req, to) && OneMembershipEach(s.db)
    requires x.req.target in s.db.members
    requires MayChange(s.db, x.req.actor, am, x.req.org, x.req.target, s.db.members[x.req.target].role, to)
    requires (s.locking ==> Free(s, t, OrgRow(x.req.org))) && Free(s, t, MemberRow(x.req.target))
    requires x.pc == PcAfter(am, |s.log|, s.db.members[am].role, s.db.members[x.req.target], n)
    ensures DecideChange(s, t, x, to)
            == Goto(PcAfter(am, |s.log|, s.db.members[am].role, s.db.members[x.req.target], n + 1))
  {
  }

  lemma OneMoreStatement(s: State, t: Id, am: Id, to: Option<Role>, n: nat)
    requires n < 6 && Unhindered(s, t, am, to)
    ensures Next(At(s, t, am, n), Advance(t)) == At(s, t, am, n + 1)
  {
    var s', r := At(s, t, am, n), s.txns[t].req;
    forall u | u in s'.txns && u != t ensures s'.txns[u] == s.txns[u] {}
    assert s.locking ==> Free(s', t, OrgRow(r.org));
    assert Free(s', t, MemberRow(r.target));
    StatementSucceeds(s', t, s'.txns[t], am, to, n);
    assert s'.txns[t := At(s, t, am, n + 1).txns[t]] == At(s, t, am, n + 1).txns;
  }

  /** Such a change reaches its flush in six statements. */
  lemma {:induction false} ChangeReachesFlush(s: State, t: Id, am: Id, to: Option<Role>, n: nat)
    requires n <= 6 && Unhindered(s, t, am, to) && s.txns[t].pc == Start
    ensures Run(s, Repeat(t, n)) == At(s, t, am, n)
  {
    if n == 0 {
      assert s.txns == At(s, t, am, 0).txns;
    } else {
      ChangeReachesFlush(s, t, am, to, n - 1);
      RunSnoc(s, Repeat(t, n - 1), Advance(t));
      OneMoreStatement(s, t, am, to, n - 1);
    }
  }
}

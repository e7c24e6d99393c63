/** Every schedule of membership transactions is equivalent to running the committed ones
    alone, one after another, each with its guards satisfied at its turn. What holds of such
    sequential histories (`LegalLog`) therefore holds of every reachable state. */
module MembershipSafety {
  import opened Base
  import opened Membership

  // ----- Sequential histories -----

  ghost predicate NoMember(db: Tables, user: Id, org: Id) {
    forall m :: !IsMember(db, m, user, org)
  }

  ghost predicate Authority(db: Tables, actor: Id, am: Id, org: Id, ar: Role) {
    IsMember(db, am, actor, org) && db.members[am].role == ar && MayAdminister(ar)
  }

  ghost predicate MayChange(db: Tables, actor: Id, am: Id, org: Id, mid: Id, from: Role, to: Option<Role>) {
    && IsMember(db, am, actor, org)
    && MayAdminister(db.members[am].role)
    && mid in db.members && db.members[mid].org == org && db.members[mid].role == from
    && (from.Owner? || to == Some(Owner) ==> db.members[am].role.Owner?)
    && (from.Owner? && to != Some(Owner) ==> |Owners(db, org)| >= 2)
  }

  /** What one transaction, run alone on the tables `db`, is allowed to commit. */
  ghost predicate Permitted(db: Tables, e: Event) {
    match e
    case Registered(email, user, org, mid) => email !in db.users && {user, org, mid} !! db.issued
    case Accepted(token, at, email, user, isNew, join) =>
      && Usable(db, token, at)
      && Lower(db.invites[token].email) == Lower(email)
      && (if isNew then email !in db.users && user !in db.issued
          else email in db.users && db.users[email] == user)
      && (join.Inserted? ==> join.mid !in db.issued && NoMember(db, user, db.invites[token].org))
    case RoleChanged(actor, am, org, mid, from, to) => MayChange(db, actor, am, org, mid, from, Some(to))
    case Removed(actor, am, org, mid, from) => MayChange(db, actor, am, org, mid, from, None)
    case Created(_, _, token, org, _, role, _) => token !in db.issued && !role.Owner? && org in db.orgs
    case Revoked(_, _, org, token, _) => token in db.invites && db.invites[token].org == org
  }

  /** The check before any lock found the actor an owner or administrator. */
  ghost predicate CheckOk(log: seq<Event>, chk: Check, actor: Id, org: Id) {
    && chk.seenAt <= |log|
    && IsMember(Replay(log[..chk.seenAt]), chk.am, actor, org)
    && MayAdminister(Replay(log[..chk.seenAt]).members[chk.am].role)
  }

  /** An acceptance that inserted no membership had seen one earlier in the history; who created
      or revoked an invitation had been found entitled to, earlier in the history. */
  ghost predicate Legal(log: seq<Event>, e: Event) {
    && Permitted(Replay(log), e)
    && (e.Accepted? && e.join.Existing? ==>
          && e.join.seenAt <= |log|
          && IsMember(Replay(log[..e.join.seenAt]), e.join.mid, e.user, Replay(log).invites[e.token].org))
    && (e.Created? || e.Revoked? ==> CheckOk(log, e.chk, e.actor, e.org))
  }

  ghost predicate LegalLog(log: seq<Event>) {
    forall i {:trigger Legal(log[..i], log[i])} :: 0 <= i < |log| ==> Legal(log[..i], log[i])
  }

  ghost predicate MembersOk(db: Tables) {
    forall m :: m in db.members ==>
      m in db.issued && db.members[m].org in db.orgs && db.members[m].user in db.issued
  }

  ghost predicate InvitesOk(db: Tables) {
    forall k :: k in db.invites ==>
      k in db.issued && db.invites[k].org in db.orgs && !db.invites[k].role.Owner?
  }

  /** `ix_memberships_user_org` is a unique index. */
  ghost predicate OneMembershipEach(db: Tables) {
    forall m, n, user, org :: IsMember(db, m, user, org) && IsMember(db, n, user, org) ==> m == n
  }

  ghost predicate EveryOrgOwned(db: Tables) {
    forall o :: o in db.orgs ==> Owners(db, o) != {}
  }

  ghost predicate DbOk(db: Tables) {
    && MembersOk(db)
    && InvitesOk(db)
    && (forall e :: e in db.users ==> db.users[e] in db.issued)
    && db.orgs <= db.issued
    && OneMembershipEach(db)
    && EveryOrgOwned(db)
  }

  lemma ReplaySnoc(log: seq<Event>, e: Event)
    ensures Replay(log + [e]) == Apply(Replay(log), e)
  {
  }

  lemma LegalSnoc(log: seq<Event>, e: Event)
    requires LegalLog(log) && Legal(log, e)
    ensures LegalLog(log + [e])
  {
    forall i | 0 <= i < |log + [e]| ensures Legal((log + [e])[..i], (log + [e])[i]) {
      assert (log + [e])[..i] == log[..i];
      assert log[..|log|] == log;
    }
  }

  lemma OtherOwner(db: Tables, org: Id, mid: Id) returns (m: Id)
    requires |Owners(db, org)| >= 2
    ensures m in Owners(db, org) && m != mid
  {
    if Owners(db, org) <= {mid} {
      SubsetCardinality(Owners(db, org), {mid});
    }
    m :| m in Owners(db, org) && m != mid;
  }

  lemma ChangeKeepsOwner(db: Tables, e: Event, o: Id)
    requires Owners(db, o) != {} && Permitted(db, e)
    requires e.RoleChanged? || e.Removed?
    ensures Owners(Apply(db, e), o) != {}
  {
    var demoted := e.from.Owner? && !(e.RoleChanged? && e.to.Owner?);
    var m: Id;
    if o == e.org && demoted {
      m := OtherOwner(db, o, e.mid);
    } else {
      m :| m in Owners(db, o);
    }
    assert m in Owners(Apply(db, e), o);
  }

  lemma OwnersAfter(db: Tables, e: Event)
    requires MembersOk(db) && EveryOrgOwned(db) && Permitted(db, e)
    ensures EveryOrgOwned(Apply(db, e))
  {
    var after := Apply(db, e);
    forall o | o in after.orgs ensures Owners(after, o) != {} {
      if e.RoleChanged? || e.Removed? {
        ChangeKeepsOwner(db, e, o);
      } else if e.Registered? && o == e.org {
        assert e.mid in Owners(after, o);
      } else {
        var m :| m in Owners(db, o);
        assert m in Owners(after, o);
      }
    }
  }

  lemma OneMembershipAfter(db: Tables, e: Event)
    requires DbOk(db) && Permitted(db, e)
    ensures OneMembershipEach(Apply(db, e))
  {
    var after := Apply(db, e);
    forall m, n, user, org | IsMember(after, m, user, org) && IsMember(after, n, user, org) ensures m == n {
      assert m in db.members ==> IsMember(db, m, user, org);
      assert n in db.members ==> IsMember(db, n, user, org);
    }
  }

  lemma DbOkAfter(db: Tables, e: Event)
    requires DbOk(db) && Permitted(db, e)
    ensures DbOk(Apply(db, e))
  {
    OwnersAfter(db, e);
    OneMembershipAfter(db, e);
    RowsAfter(db, e);
  }

  lemma RowsAfter(db: Tables, e: Event)
    requires DbOk(db) && Permitted(db, e)
    ensures MembersOk(Apply(db, e)) && InvitesOk(Apply(db, e))
  {
  }

  lemma {:induction false} LegalLogDbOk(log: seq<Event>)
    requires LegalLog(log)
    ensures DbOk(Replay(log))
  {
    if log != [] {
      var n := |log| - 1;
      forall i | 0 <= i < n ensures Legal(log[..n][..i], log[..n][i]) {
        assert log[..n][..i] == log[..i];
      }
      LegalLogDbOk(log[..n]);
      assert Legal(log[..n], log[n]);
      DbOkAfter(Replay(log[..n]), log[n]);
    }
  }

  // ----- What a running transaction may rely on -----

  ghost predicate TokenOk(db: Tables, x: Txn, inv: Invite)
    requires x.req.Accept?
  {
    && Usable(db, x.req.token, x.at) && db.invites[x.req.token] == inv
    && Lower(inv.email) == Lower(x.req.email)
  }

  ghost predicate UserOk(db: Tables, x: Txn, uid: Id, isNew: bool)
    requires x.req.Accept?
  {
    if isNew then uid == x.req.user && x.req.email !in db.users
    else x.req.email in db.users && db.users[x.req.email] == uid
  }

  ghost predicate JoinOk(log: seq<Event>, x: Txn, inv: Invite, uid: Id, join: Join)
    requires x.req.Accept?
  {
    match join
    case Inserted(mid) => mid == x.req.mid && NoMember(Replay(log), uid, inv.org)
    case Existing(mid, k) => k <= |log| && IsMember(Replay(log[..k]), mid, uid, inv.org)
  }

  ghost predicate AcceptOk(log: seq<Event>, x: Txn)
    requires x.req.Accept?
  {
    var db := Replay(log);
    match x.pc
    case Consumed(inv) => TokenOk(db, x, inv)
    case NeedUser(inv) => TokenOk(db, x, inv)
    case HasUser(inv, uid, isNew) => TokenOk(db, x, inv) && UserOk(db, x, uid, isNew)
    case NeedMember(inv, uid, isNew) => TokenOk(db, x, inv) && UserOk(db, x, uid, isNew)
    case Ready(inv, uid, isNew, join) =>
      TokenOk(db, x, inv) && UserOk(db, x, uid, isNew) && JoinOk(log, x, inv, uid, join)
    case _ => true
  }

  ghost predicate ChangeOk(db: Tables, x: Txn, to: Option<Role>)
    requires x.req.Patch? || x.req.Remove?
  {
    var actor, org, target := x.req.actor, x.req.org, x.req.target;
    match x.pc
    case Authorized(am, ar) => Authority(db, actor, am, org, ar)
    case Targeted(am, ar, row) =>
      && Authority(db, actor, am, org, ar)
      && target in db.members && db.members[target] == row && row.org == org
      && (row.role.Owner? || to == Some(Owner) ==> ar.Owner?)
    case Cleared(am, ar, row) =>
      db.members.Keys >= {target} && db.members[target] == row && MayChange(db, actor, am, org, target, row.role, to)
    case Flushed(am, ar, row) =>
      db.members.Keys >= {target} && db.members[target] == row && MayChange(db, actor, am, org, target, row.role, to)
    case _ => true
  }

  ghost predicate TxnOk(log: seq<Event>, x: Txn) {
    var db := Replay(log);
    && Ids(x.req) !! db.issued
    && match x.req
       case Register(email, _, _, _) => x.pc.Registering? ==> email !in db.users
       case Accept(_, _, _, _, _) => AcceptOk(log, x)
       case Patch(_, _, _, role) => ChangeOk(db, x, Some(role))
       case Remove(_, _, _) => ChangeOk(db, x, None)
       case Create(actor, org, _, _, role) =>
         x.pc.Prechecked? ==> !role.Owner? && org in db.orgs && CheckOk(log, x.pc.chk, actor, org)
       case Revoke(actor, org, token) =>
         && (x.pc.Prechecked? || x.pc.Found? || x.pc.Revoking? ==> CheckOk(log, x.pc.chk, actor, org))
         && (x.pc.Found? || x.pc.Revoking? ==> token in db.invites && db.invites[token].org == org)
  }

  ghost predicate Inv(s: State) {
    && s.locking
    && s.db == Replay(s.log)
    && LegalLog(s.log)
    && |s.times| == |s.log|
    && (forall t :: t in s.txns ==> TxnOk(s.log, s.txns[t]))
    && (forall t, u :: t in s.txns && u in s.txns && t != u
          ==> Holds(s.locking, s.txns[t]) !! Holds(s.locking, s.txns[u]))
  }

  // ----- A commit does not disturb transactions that hold other locks -----

  /** The locks a transaction must hold to commit `e`. */
  ghost function Guards(db: Tables, e: Event): set<Resource> {
    match e
    case Registered(email, user, org, mid) => {EmailKey(email), Generated(user), Generated(org), Generated(mid)}
    case Accepted(token, _, email, user, isNew, join) =>
      {TokenRow(token)}
      + (if isNew then {EmailKey(email), Generated(user)} else {})
      + (if join.Inserted? && token in db.invites
         then {Generated(join.mid), PairKey(user, db.invites[token].org)} else {})
    case RoleChanged(_, _, org, _, _, _) => {OrgRow(org)}
    case Removed(_, _, org, _, _) => {OrgRow(org)}
    case Created(_, _, token, _, _, _, _) => {Generated(token)}
    case Revoked(_, _, _, token, _) => {TokenRow(token)}
  }

  lemma {:induction false} CommitIsLegal(s: State, t: Id)
    requires Inv(s) && t in s.txns && Decide(s, t).Commit?
    ensures Legal(s.log, Decide(s, t).event)
    ensures Guards(s.db, Decide(s, t).event) <= Holds(true, s.txns[t])
  {
    var x := s.txns[t];
    assert TxnOk(s.log, x);
    forall i | i in Ids(x.req) ensures Generated(i) in Holds(true, x) {}
  }

  lemma ChangeStable(db: Tables, e: Event, y: Txn, to: Option<Role>)
    requires DbOk(db) && Permitted(db, e)
    requires y.req.Patch? || y.req.Remove?
    requires ChangeOk(db, y, to)
    requires OrgRow(y.req.org) !in Guards(db, e)
    ensures ChangeOk(Apply(db, e), y, to)
  {
    var after, org := Apply(db, e), y.req.org;
    forall m | m in db.members && db.members[m].org == org
      ensures m in after.members && after.members[m] == db.members[m]
    {
    }
    forall m | m in Owners(db, org) ensures m in Owners(after, org) {}
    SubsetCardinality(Owners(db, org), Owners(after, org));
  }

  lemma TokenStable(db: Tables, e: Event, y: Txn, inv: Invite)
    requires InvitesOk(db) && Permitted(db, e)
    requires y.req.Accept? && TokenOk(db, y, inv)
    requires TokenRow(y.req.token) !in Guards(db, e)
    ensures TokenOk(Apply(db, e), y, inv)
  {
  }

  lemma UserStable(db: Tables, e: Event, y: Txn, uid: Id, isNew: bool)
    requires Permitted(db, e)
    requires y.req.Accept? && UserOk(db, y, uid, isNew)
    requires isNew ==> EmailKey(y.req.email) !in Guards(db, e)
    ensures UserOk(Apply(db, e), y, uid, isNew)
  {
  }

  lemma PairStable(db: Tables, e: Event, uid: Id, org: Id)
    requires MembersOk(db) && InvitesOk(db) && Permitted(db, e) && db.orgs <= db.issued
    requires NoMember(db, uid, org) && org in db.orgs
    requires PairKey(uid, org) !in Guards(db, e)
    ensures NoMember(Apply(db, e), uid, org)
  {
    forall m ensures !IsMember(Apply(db, e), m, uid, org) {
      assert !IsMember(db, m, uid, org);
    }
  }

  lemma AcceptStable(log: seq<Event>, e: Event, y: Txn)
    requires DbOk(Replay(log)) && Legal(log, e)
    requires y.req.Accept? && AcceptOk(log, y)
    requires Guards(Replay(log), e) !! Holds(true, y)
    ensures AcceptOk(log + [e], y)
  {
    ReplaySnoc(log, e);
    var db := Replay(log);
    match y.pc
    case Consumed(inv) => TokenStable(db, e, y, inv);
    case NeedUser(inv) => TokenStable(db, e, y, inv);
    case HasUser(inv, uid, isNew) => TokenStable(db, e, y, inv); UserStable(db, e, y, uid, isNew);
    case NeedMember(inv, uid, isNew) => TokenStable(db, e, y, inv); UserStable(db, e, y, uid, isNew);
    case Ready(inv, uid, isNew, join) =>
      TokenStable(db, e, y, inv);
      UserStable(db, e, y, uid, isNew);
      JoinStable(log, e, y, inv, uid, join);
    case _ =>
  }

  lemma JoinStable(log: seq<Event>, e: Event, y: Txn, inv: Invite, uid: Id, join: Join)
    requires DbOk(Replay(log)) && Legal(log, e) && y.req.Accept? && JoinOk(log, y, inv, uid, join)
    requires inv.org in Replay(log).orgs && (join.Inserted? ==> PairKey(uid, inv.org) in Holds(true, y))
    requires Guards(Replay(log), e) !! Holds(true, y)
    ensures JoinOk(log + [e], y, inv, uid, join)
  {
    ReplaySnoc(log, e);
    if join.Inserted? {
      assert PairKey(uid, inv.org) !in Guards(Replay(log), e);
      PairStable(Replay(log), e, uid, inv.org);
    } else {
      assert (log + [e])[..join.seenAt] == log[..join.seenAt];
    }
  }

  lemma IdsStable(db: Tables, e: Event, y: Txn)
    requires Ids(y.req) !! db.issued && Guards(db, e) !! Holds(true, y)
    ensures Ids(y.req) !! Apply(db, e).issued
  {
  }

  lemma TxnStable(log: seq<Event>, e: Event, y: Txn)
    requires DbOk(Replay(log)) && Legal(log, e)
    requires TxnOk(log, y)
    requires Guards(Replay(log), e) !! Holds(true, y)
    ensures TxnOk(log + [e], y)
  {
    ReplaySnoc(log, e);
    var db := Replay(log);
    IdsStable(db, e, y);
    match y.req
    case Accept(_, _, _, _, _) => AcceptStable(log, e, y);
    case Patch(_, _, _, role) => PatchStable(db, e, y, Some(role));
    case Remove(_, _, _) => PatchStable(db, e, y, None);
    case Register(email, _, _, _) => RegisterStable(db, e, y);
    case Create(_, _, _, _, _) => ChecksStay(log, e);
    case Revoke(_, _, _) => ChecksStay(log, e);
  }

  lemma ChecksStay(log: seq<Event>, e: Event)
    ensures forall chk, actor, org :: CheckOk(log, chk, actor, org) ==> CheckOk(log + [e], chk, actor, org)
  {
    forall chk, actor, org | CheckOk(log, chk, actor, org) ensures CheckOk(log + [e], chk, actor, org) {
      assert (log + [e])[..chk.seenAt] == log[..chk.seenAt];
    }
  }

  lemma RegisterStable(db: Tables, e: Event, y: Txn)
    requires Permitted(db, e) && y.req.Register?
    requires Guards(db, e) !! Holds(true, y)
    ensures y.pc.Registering? && y.req.email !in db.users ==> y.req.email !in Apply(db, e).users
  {
  }

  lemma PatchStable(db: Tables, e: Event, y: Txn, to: Option<Role>)
    requires DbOk(db) && Permitted(db, e)
    requires y.req.Patch? || y.req.Remove?
    requires ChangeOk(db, y, to)
    requires Guards(db, e) !! Holds(true, y)
    ensures ChangeOk(Apply(db, e), y, to)
  {
    if y.pc.Authorized? || y.pc.Targeted? || y.pc.Cleared? || y.pc.Flushed? {
      assert OrgRow(y.req.org) in Holds(true, y);
      ChangeStable(db, e, y, to);
    }
  }

  // ----- The invariant -----

  lemma AcceptGotoOk(s: State, t: Id)
    requires Inv(s) && t in s.txns && s.txns[t].req.Accept? && Decide(s, t).Goto?
    ensures AcceptOk(s.log, s.txns[t].(pc := Decide(s, t).pc))
  {
    var x := s.txns[t];
    assert TxnOk(s.log, x);
    assert s.log[..|s.log|] == s.log;
  }

  lemma ChangeGotoOk(s: State, t: Id, to: Option<Role>)
    requires Inv(s) && t in s.txns && Decide(s, t).Goto?
    requires var r := s.txns[t].req; (r.Patch? && to == Some(r.role)) || (r.Remove? && to == None)
    ensures ChangeOk(s.db, s.txns[t].(pc := Decide(s, t).pc), to)
  {
    assert TxnOk(s.log, s.txns[t]);
  }

  lemma GotoOk(s: State, t: Id)
    requires Inv(s) && t in s.txns && Decide(s, t).Goto?
    ensures TxnOk(s.log, s.txns[t].(pc := Decide(s, t).pc))
  {
    var x := s.txns[t];
    assert TxnOk(s.log, x);
    LegalLogDbOk(s.log);
    assert s.log[..|s.log|] == s.log;
    match x.req
    case Accept(_, _, _, _, _) => AcceptGotoOk(s, t);
    case Patch(_, _, _, role) => ChangeGotoOk(s, t, Some(role));
    case Remove(_, _, _) => ChangeGotoOk(s, t, None);
    case _ =>
  }

  /** A statement that lets the transaction go on either takes no lock or takes a free one. */
  lemma GotoLocks(s: State, t: Id, r: Resource)
    requires s.locking && t in s.txns && Decide(s, t).Goto?
    requires r in Locks(true, s.txns[t].(pc := Decide(s, t).pc)) && r !in Locks(true, s.txns[t])
    ensures Free(s, t, r)
  {
  }

  lemma GotoHolds(s: State, t: Id, u: Id)
    requires s.locking && t in s.txns && u in s.txns && t != u && Decide(s, t).Goto?
    requires Holds(true, s.txns[t]) !! Holds(true, s.txns[u])
    ensures Holds(true, s.txns[t].(pc := Decide(s, t).pc)) !! Holds(true, s.txns[u])
  {
    var x := s.txns[t];
    var y := x.(pc := Decide(s, t).pc);
    forall r | r in Holds(true, y) ensures r !in Holds(true, s.txns[u]) {
      if r in Locks(true, y) && r !in Locks(true, x) {
        GotoLocks(s, t, r);
      }
    }
  }

  lemma BeginKeepsInv(s: State, t: Id, req: Request)
    requires Inv(s)
    ensures Inv(Next(s, Begin(t, req)))
  {
  }

  lemma GotoKeepsInv(s: State, t: Id)
    requires Inv(s) && t in s.txns && Decide(s, t).Goto?
    ensures Inv(Next(s, Advance(t)))
  {
    GotoOk(s, t);
    forall u | u in s.txns && u != t
      ensures Holds(true, s.txns[t].(pc := Decide(s, t).pc)) !! Holds(true, s.txns[u])
    {
      GotoHolds(s, t, u);
    }
  }

  lemma CommitKeepsInv(s: State, t: Id)
    requires Inv(s) && t in s.txns && Decide(s, t).Commit?
    ensures Inv(Next(s, Advance(t)))
  {
    var e := Decide(s, t).event;
    CommitIsLegal(s, t);
    LegalSnoc(s.log, e);
    ReplaySnoc(s.log, e);
    LegalLogDbOk(s.log);
    OthersStable(s, t, e);
  }

  lemma OthersStable(s: State, t: Id, e: Event)
    requires Inv(s) && t in s.txns && Legal(s.log, e) && DbOk(s.db) && Guards(s.db, e) <= Holds(true, s.txns[t])
    ensures forall u :: u in s.txns && u != t ==> TxnOk(s.log + [e], s.txns[u])
  {
    forall u | u in s.txns && u != t ensures TxnOk(s.log + [e], s.txns[u]) {
      assert Holds(true, s.txns[t]) !! Holds(true, s.txns[u]);
      TxnStable(s.log, e, s.txns[u]);
    }
  }

  lemma NextKeepsInv(s: State, a: Action)
    requires Inv(s)
    ensures Inv(Next(s, a))
  {
    match a
    case Begin(t, req) => BeginKeepsInv(s, t, req);
    case Advance(t) =>
      if t in s.txns {
        match Decide(s, t)
        case Goto(_) => GotoKeepsInv(s, t);
        case Commit(_) => CommitKeepsInv(s, t);
        case _ =>
      }
    case _ =>
  }

  lemma {:induction false} RunKeepsInv(schedule: seq<Action>)
    ensures Inv(Run(Init(true), schedule))
  {
    if schedule != [] {
      RunKeepsInv(schedule[..|schedule| - 1]);
      NextKeepsInv(Run(Init(true), schedule[..|schedule| - 1]), schedule[|schedule| - 1]);
    }
  }
}

/** The membership request handlers as they are written, each running with no other transaction
    in between, and shown to do what its transaction does when nothing is interleaved with it. */
module MembershipHandlers {
  import opened Base
  import opened Membership
  import opened MembershipSafety
  import opened MembershipTheorems

  // ----- A transaction alone -----

  /** `s` with the transaction `x` in it and no other. */
  function Solo(s: State, x: Txn): State { s.(txns := map[0 := x]) }

  /** What `x` commits when `n` statements of it run and nothing else does. */
  ghost function Alone(s: State, x: Txn, n: nat): Option<Event>
    decreases n
  {
    if n == 0 then None
    else match Decide(Solo(s, x), 0)
      case Block => None
      case Fail => None
      case Commit(e) => Some(e)
      case Goto(pc) => Alone(s, x.(pc := pc), n - 1)
  }

  function ApplyAny(db: Tables, e: Option<Event>): Tables { if e.Some? then Apply(db, e.value) else db }

  /** `s` after `e` has been committed and no transaction is left. */
  function Committed(s: State, e: Event): State {
    s.(db := Apply(s.db, e), txns := map[], log := s.log + [e], times := s.times + [s.now])
  }

  /** `n` statements of transaction 0, if it is still there. */
  ghost function Steps(s: State, n: nat): State
    decreases n
  {
    if n == 0 then s else Steps(Next(s, Advance(0)), n - 1)
  }

  lemma {:induction false} StepsAreARun(s: State, n: nat)
    ensures Run(s, Repeat(0, n)) == Steps(s, n)
    decreases n
  {
    if n > 0 {
      var next := Next(s, Advance(0));
      FirstThenRest(s, n);
      StepsAreARun(next, n - 1);
      assert Steps(s, n) == Steps(next, n - 1);
    }
  }

  lemma {:induction false} FirstThenRest(s: State, n: nat)
    requires n > 0
    ensures Run(s, Repeat(0, n)) == Run(Next(s, Advance(0)), Repeat(0, n - 1))
  {
    RunSnoc(s, Repeat(0, n - 1), Advance(0));
    if n > 1 {
      FirstThenRest(s, n - 1);
      RunSnoc(Next(s, Advance(0)), Repeat(0, n - 2), Advance(0));
    }
  }

  lemma {:induction false} NothingLeftToRun(s: State, n: nat)
    requires s.txns == map[]
    ensures Steps(s, n) == s
    decreases n
  {
    if n > 0 {
      NothingLeftToRun(s, n - 1);
    }
  }

  lemma StatementAlone(s: State, x: Txn, pc: Pc, n: nat)
    requires n > 0 && Decide(Solo(s, x), 0) == Goto(pc)
    ensures Next(Solo(s, x), Advance(0)) == Solo(s, x.(pc := pc))
    ensures Alone(s, x, n) == Alone(s, x.(pc := pc), n - 1)
  {
  }

  lemma EndAlone(s: State, x: Txn, n: nat)
    requires n > 0 && !Decide(Solo(s, x), 0).Goto?
    ensures Next(Solo(s, x), Advance(0))
         == if Alone(s, x, n).Some? then Committed(s, Alone(s, x, n).value) else s.(txns := map[])
  {
  }

  /** What `n` statements of a transaction alone leave. */
  ghost predicate Leaves(s: State, x: Txn, n: nat, after: State) {
    && after.db == ApplyAny(s.db, Alone(s, x, n))
    && (Alone(s, x, n).Some? ==> after == Committed(s, Alone(s, x, n).value))
  }

  lemma {:induction false} StepsAgree(s: State, x: Txn, n: nat)
    ensures Leaves(s, x, n, Steps(Solo(s, x), n))
    decreases n
  {
    var outcome := Decide(Solo(s, x), 0);
    if n > 0 {
      if outcome.Goto? {
        StatementAlone(s, x, outcome.pc, n);
        StepsAgree(s, x.(pc := outcome.pc), n - 1);
      } else {
        EndAlone(s, x, n);
        NothingLeftToRun(Next(Solo(s, x), Advance(0)), n - 1);
      }
    }
  }

  /** `Alone` is what the state machine does with the transaction alone in it. */
  lemma AloneIsARun(s: State, x: Txn, n: nat)
    ensures Leaves(s, x, n, Run(Solo(s, x), Repeat(0, n)))
  {
    StepsAreARun(Solo(s, x), n);
    StepsAgree(s, x, n);
  }

  /** Seven statements are as many as any transaction has. */
  const STATEMENTS: nat := 7

  /** A request served from beginning to end. */
  function Serving(req: Request): seq<Action> { [Begin(0, req)] + Repeat(0, STATEMENTS) }

  lemma Served(s: State, req: Request, e: Event)
    requires s.txns == map[] && Ids(req) !! s.db.issued
    requires Alone(s, Txn(req, s.now, Start), STATEMENTS) == Some(e)
    ensures Run(s, Serving(req)) == Committed(s, e)
  {
    var x := Txn(req, s.now, Start);
    RunSnoc(s, [], Begin(0, req));
    assert [] + [Begin(0, req)] == [Begin(0, req)];
    assert s.txns[0 := x] == map[0 := x];
    RunConcat(s, [Begin(0, req)], Repeat(0, STATEMENTS));
    AloneIsARun(s, x, STATEMENTS);
  }

  /** Alone, a registration commits exactly when the address is free. */
  lemma RegisterAlone(s: State, req: Request)
    requires req.Register?
    ensures Alone(s, Txn(req, s.now, Start), STATEMENTS)
         == if req.email in s.db.users then None else Some(Registered(req.email, req.user, req.org, req.mid))
  {
    if req.email !in s.db.users {
      StatementAlone(s, Txn(req, s.now, Start), EmailFree, 7);
      StatementAlone(s, Txn(req, s.now, EmailFree), Registering, 6);
    }
  }

  function Changed(req: Request, am: Id, from: Role): Event
    requires req.Patch? || req.Remove?
  {
    if req.Patch? then RoleChanged(req.actor, am, req.org, req.target, from, req.role)
    else Removed(req.actor, am, req.org, req.target, from)
  }

  function NewRole(req: Request): Option<Role> { if req.Patch? then Some(req.role) else None }

  /** Alone, a change of a role and a removal commit exactly when the actor may make them. */
  lemma ChangeAlone(s: State, req: Request, am: Id)
    requires (req.Patch? || req.Remove?) && OneMembershipEach(s.db) && IsMember(s.db, am, req.actor, req.org)
    ensures Alone(s, Txn(req, s.now, Start), STATEMENTS)
         == if req.target in s.db.members
               && MayChange(s.db, req.actor, am, req.org, req.target, s.db.members[req.target].role, NewRole(req))
            then Some(Changed(req, am, s.db.members[req.target].role)) else None
  {
    LookupIs(s.db, am, req.actor, req.org);
    var ar := s.db.members[am].role;
    if MayAdminister(ar) {
      var chk := Check(am, |s.log|);
      StatementAlone(s, Txn(req, s.now, Start), Prechecked(chk), 7);
      StatementAlone(s, Txn(req, s.now, Prechecked(chk)), Locked, 6);
      StatementAlone(s, Txn(req, s.now, Locked), Authorized(am, ar), 5);
      ChangeAloneOnceAuthorized(s, req, am);
    }
  }

  lemma ChangeAloneOnceTargeted(s: State, req: Request, am: Id, ar: Role, row: Row)
    requires (req.Patch? || req.Remove?) && req.target in s.db.members && s.db.members[req.target] == row
    ensures Alone(s, Txn(req, s.now, Targeted(am, ar, row)), 3)
         == if row.role.Owner? && NewRole(req) != Some(Owner) && |Owners(s.db, req.org)| <= 1 then None
            else Some(Changed(req, am, row.role))
  {
  }

  lemma ChangeAloneOnceAuthorized(s: State, req: Request, am: Id)
    requires (req.Patch? || req.Remove?) && IsMember(s.db, am, req.actor, req.org)
    requires MayAdminister(s.db.members[am].role)
    ensures Alone(s, Txn(req, s.now, Authorized(am, s.db.members[am].role)), 4)
         == if req.target in s.db.members
               && MayChange(s.db, req.actor, am, req.org, req.target, s.db.members[req.target].role, NewRole(req))
            then Some(Changed(req, am, s.db.members[req.target].role)) else None
  {
    var ar, to := s.db.members[am].role, NewRole(req);
    if req.target in s.db.members && s.db.members[req.target].org == req.org {
      var row := s.db.members[req.target];
      if ar.Owner? || !(row.role.Owner? || to == Some(Owner)) {
        StatementAlone(s, Txn(req, s.now, Authorized(am, ar)), Targeted(am, ar, row), 4);
        ChangeAloneOnceTargeted(s, req, am, ar, row);
      }
    }
  }

  /** The user an acceptance joins with: the one with its address, or a new one. */
  function Joining(db: Tables, req: Request): (Id, bool)
    requires req.Accept?
  {
    if req.email in db.users then (db.users[req.email], false) else (req.user, true)
  }

  predicate MayAccept(db: Tables, req: Request, at: int)
    requires req.Accept?
  {
    && Usable(db, req.token, at) && Lower(db.invites[req.token].email) == Lower(req.email)
    && (req.email in db.users || (req.password.Some? && |req.password.value| >= 8))
  }

  /** Alone, an acceptance commits exactly when the token and the password allow it. */
  lemma AcceptAlone(s: State, req: Request)
    requires req.Accept?
    ensures Alone(s, Txn(req, s.now, Start), STATEMENTS)
         == if !MayAccept(s.db, req, s.now) then None
            else
              var (uid, isNew) := Joining(s.db, req);
              var m := Lookup(s.db, uid, s.db.invites[req.token].org);
              Some(Accepted(req.token, s.now, req.email, uid, isNew,
                            if m.Some? then Existing(m.value, |s.log|) else Inserted(req.mid)))
  {
    var x := Txn(req, s.now, Start);
    if Usable(s.db, req.token, s.now) && Lower(s.db.invites[req.token].email) == Lower(req.email) {
      var inv := s.db.invites[req.token];
      var (uid, isNew) := Joining(s.db, req);
      StatementAlone(s, x, Consumed(inv), 7);
      if !isNew {
        StatementAlone(s, x.(pc := Consumed(inv)), HasUser(inv, uid, false), 6);
        JoinAlone(s, req, inv, uid, false, 5);
      } else if req.password.Some? && |req.password.value| >= 8 {
        StatementAlone(s, x.(pc := Consumed(inv)), NeedUser(inv), 6);
        StatementAlone(s, x.(pc := NeedUser(inv)), HasUser(inv, uid, true), 5);
        JoinAlone(s, req, inv, uid, true, 4);
      }
    }
  }

  lemma ReadyAlone(s: State, req: Request, inv: Invite, uid: Id, isNew: bool, join: Join, n: nat)
    requires req.Accept? && n > 0
    ensures Alone(s, Txn(req, s.now, Ready(inv, uid, isNew, join)), n)
         == Some(Accepted(req.token, s.now, req.email, uid, isNew, join))
  {
  }

  lemma JoinAlone(s: State, req: Request, inv: Invite, uid: Id, isNew: bool, n: nat)
    requires req.Accept? && n >= 3
    ensures var m := Lookup(s.db, uid, inv.org);
      Alone(s, Txn(req, s.now, HasUser(inv, uid, isNew)), n)
         == Some(Accepted(req.token, s.now, req.email, uid, isNew,
                          if m.Some? then Existing(m.value, |s.log|) else Inserted(req.mid)))
  {
    var x, m := Txn(req, s.now, HasUser(inv, uid, isNew)), Lookup(s.db, uid, inv.org);
    if m.Some? {
      StatementAlone(s, x, Ready(inv, uid, isNew, Existing(m.value, |s.log|)), n);
      ReadyAlone(s, req, inv, uid, isNew, Existing(m.value, |s.log|), n - 1);
    } else {
      StatementAlone(s, x, NeedMember(inv, uid, isNew), n);
      StatementAlone(s, x.(pc := NeedMember(inv, uid, isNew)), Ready(inv, uid, isNew, Inserted(req.mid)), n - 1);
      ReadyAlone(s, req, inv, uid, isNew, Inserted(req.mid), n - 2);
    }
  }

  /** Whether `requires_role("owner", "admin")` lets the actor through. */
  ghost predicate Administers(db: Tables, actor: Id, org: Id) {
    var m := Lookup(db, actor, org);
    m.Some? && MayAdminister(db.members[m.value].role)
  }

  ghost function Checked(s: State, actor: Id, org: Id): Check
    requires Administers(s.db, actor, org)
  {
    Check(Lookup(s.db, actor, org).value, |s.log|)
  }

  lemma CreateAlone(s: State, req: Request)
    requires req.Create?
    ensures Alone(s, Txn(req, s.now, Start), STATEMENTS)
         == if req.role.Owner? || !Administers(s.db, req.actor, req.org) then None
            else Some(Created(req.actor, Checked(s, req.actor, req.org), req.token, req.org, Lower(req.email), req.role,
                              s.now + WEEK))
  {
  }

  lemma RevokeAloneOnceChecked(s: State, req: Request, chk: Check)
    requires req.Revoke?
    ensures Alone(s, Txn(req, s.now, Prechecked(chk)), 6)
         == if && req.token in s.db.invites && s.db.invites[req.token].org == req.org
               && s.db.invites[req.token].revoked.None?
            then Some(Revoked(req.actor, chk, req.org, req.token, s.now)) else None
  {
  }

  lemma RevokeAlone(s: State, req: Request)
    requires req.Revoke?
    ensures Alone(s, Txn(req, s.now, Start), STATEMENTS)
         == if Administers(s.db, req.actor, req.org) && req.token in s.db.invites
               && s.db.invites[req.token].org == req.org && s.db.invites[req.token].revoked.None?
            then Some(Revoked(req.actor, Checked(s, req.actor, req.org), req.org, req.token, s.now)) else None
  {
    if Administers(s.db, req.actor, req.org) {
      var chk := Checked(s, req.actor, req.org);
      StatementAlone(s, Txn(req, s.now, Start), Prechecked(chk), 7);
      RevokeAloneOnceChecked(s, req, chk);
    }
  }

  // ----- The handlers -----

  function Idle(db: Tables, at: int): State { State(true, db, map[], at, [], []) }

  /** What every handler promises of the tables before and after it: it commits what its transaction
      commits alone, which is permitted, or it changes nothing. */
  ghost predicate Ran(before: Tables, after: Tables, req: Request, at: int, r: Option<Event>) {
    && r == Alone(Idle(before, at), Txn(req, at, Start), STATEMENTS)
    && after == ApplyAny(before, r)
    && DbOk(after)
    && (r.Some? ==> Permitted(before, r.value))
  }

  class Service {
    var orgs: set<Id>
    var users: map<Email, Id>
    var members: map<Id, Row>
    var invites: map<Id, Invite>
    var issued: set<Id>

    function View(): Tables reads this { Tables(orgs, users, members, invites, issued) }

    constructor ()
      ensures View() == EMPTY && DbOk(View())
    {
      orgs, users, members, invites, issued := {}, map[], map[], map[], {};
    }

    method FindMember(user: Id, org: Id) returns (m: Option<Id>)
      requires OneMembershipEach(View())
      ensures m == Lookup(View(), user, org)
    {
      m := None;
      if k :| k in members && members[k].user == user && members[k].org == org {
        m := Some(k);
        LookupIs(View(), k, user, org);
      } else {
        assert forall k :: !IsMember(View(), k, user, org);
      }
    }

    method Register(email: Email, user: Id, org: Id, mid: Id, at: int) returns (r: Option<Event>)
      requires DbOk(View()) && {user, org, mid} !! issued
      modifies this
      ensures Ran(old(View()), View(), Request.Register(email, user, org, mid), at, r)
    {
      RegisterAlone(Idle(View(), at), Request.Register(email, user, org, mid));
      if email in users {
        return None;
      }
      r := Some(Registered(email, user, org, mid));
      DbOkAfter(View(), r.value);
      users := users[email := user];
      orgs := orgs + {org};
      members := members[mid := Row(user, org, Owner)];
      issued := issued + {user, org, mid};
    }

    /** The dependency `requires_role` and `_lock_membership_change` make the same check. */
    method Administrator(actor: Id, org: Id) returns (am: Option<Id>)
      requires OneMembershipEach(View())
      ensures am == if Administers(View(), actor, org) then Lookup(View(), actor, org) else None
    {
      am := FindMember(actor, org);
      if am.Some? && !MayAdminister(members[am.value].role) {
        am := None;
      }
    }

    method PatchMemberRole(actor: Id, org: Id, target: Id, role: Role, at: int) returns (r: Option<Event>)
      requires DbOk(View())
      modifies this
      ensures Ran(old(View()), View(), Request.Patch(actor, org, target, role), at, r)
    {
      ghost var req := Request.Patch(actor, org, target, role);
      var member := Administrator(actor, org);
      if member.None? {
        NoChangeWithoutAuthority(Idle(View(), at), req);
        return None;
      }
      var am := member.value;
      ChangeAlone(Idle(View(), at), req, am);
      if target !in members || members[target].org != org {
        return None;
      }
      if members[am].role != Owner && (members[target].role == Owner || role == Owner) {
        return None;
      }
      if members[target].role == Owner && role != Owner {
        var owners := set m | m in members && members[m].org == org && members[m].role.Owner?;
        assert owners == Owners(View(), org);
        if |owners| <= 1 {
          return None;
        }
      }
      r := Some(RoleChanged(actor, am, org, target, members[target].role, role));
      DbOkAfter(View(), r.value);
      members := members[target := members[target].(role := role)];
    }

    method RemoveMember(actor: Id, org: Id, target: Id, at: int) returns (r: Option<Event>)
      requires DbOk(View())
      modifies this
      ensures Ran(old(View()), View(), Request.Remove(actor, org, target), at, r)
    {
      ghost var req := Request.Remove(actor, org, target);
      var member := Administrator(actor, org);
      if member.None? {
        NoChangeWithoutAuthority(Idle(View(), at), req);
        return None;
      }
      var am := member.value;
      ChangeAlone(Idle(View(), at), req, am);
      if target !in members || members[target].org != org {
        return None;
      }
      if members[target].role == Owner {
        if members[am].role != Owner {
          return None;
        }
        var owners := set m | m in members && members[m].org == org && members[m].role.Owner?;
        assert owners == Owners(View(), org);
        if |owners| <= 1 {
          return None;
        }
      }
      r := Some(Removed(actor, am, org, target, members[target].role));
      DbOkAfter(View(), r.value);
      members := members - {target};
    }

    method CreateInvitation(actor: Id, org: Id, token: Id, email: Email, role: Role, at: int) returns (r: Option<Event>)
      requires DbOk(View()) && token !in issued
      modifies this
      ensures Ran(old(View()), View(), Request.Create(actor, org, token, email, role), at, r)
    {
      CreateAlone(Idle(View(), at), Request.Create(actor, org, token, email, role));
      if role == Owner {
        return None;
      }
      var member := Administrator(actor, org);
      if member.None? {
        return None;
      }
      r := Some(Created(actor, Check(member.value, 0), token, org, Lower(email), role, at + WEEK));
      DbOkAfter(View(), r.value);
      invites := invites[token := Invite(org, Lower(email), role, at + WEEK, None, None)];
      issued := issued + {token};
    }

    method RevokeInvitation(actor: Id, org: Id, token: Id, at: int) returns (r: Option<Event>)
      requires DbOk(View())
      modifies this
      ensures Ran(old(View()), View(), Request.Revoke(actor, org, token), at, r)
    {
      RevokeAlone(Idle(View(), at), Request.Revoke(actor, org, token));
      var member := Administrator(actor, org);
      if member.None? {
        return None;
      }
      if token !in invites || invites[token].org != org || invites[token].revoked.Some? {
        return None;
      }
      r := Some(Revoked(actor, Check(member.value, 0), org, token, at));
      DbOkAfter(View(), r.value);
      invites := invites[token := invites[token].(revoked := Some(at))];
    }

    method AcceptInvite(token: Id, email: Email, password: Option<string>, user: Id, mid: Id, at: int)
      returns (r: Option<Event>)
      requires DbOk(View()) && {user, mid} !! issued
      modifies this
      ensures Ran(old(View()), View(), Request.Accept(token, email, password, user, mid), at, r)
    {
      ghost var req := Request.Accept(token, email, password, user, mid);
      AcceptAlone(Idle(View(), at), req);
      if !Usable(View(), token, at) || Lower(invites[token].email) != Lower(email) {
        return None;
      }
      var inv := invites[token];
      var uid, isNew := user, email !in users;
      if isNew {
        if password.None? || |password.value| < 8 {
          return None;
        }
      } else {
        uid := users[email];
      }
      var existing := FindMember(uid, inv.org);
      var join := if existing.Some? then Existing(existing.value, 0) else Inserted(mid);
      var e := Accepted(token, at, email, uid, isNew, join);
      JoinIsPermitted(View(), e, mid);
      DbOkAfter(View(), e);
      WriteAcceptance(e);
      r := Some(e);
    }

    method WriteAcceptance(e: Event)
      requires e.Accepted? && e.token in invites
      modifies this
      ensures View() == Apply(old(View()), e)
    {
      var inv := invites[e.token];
      invites := invites[e.token := inv.(accepted := Some(e.at))];
      if e.isNew {
        users := users[e.email := e.user];
        issued := issued + {e.user};
      }
      if e.join.Inserted? {
        members := members[e.join.mid := Row(e.user, inv.org, inv.role)];
        issued := issued + {e.join.mid};
      }
    }
  }

  lemma JoinIsPermitted(db: Tables, e: Event, mid: Id)
    requires e.Accepted? && Usable(db, e.token, e.at) && Lower(db.invites[e.token].email) == Lower(e.email)
    requires if e.email in db.users then !e.isNew && e.user == db.users[e.email] else e.isNew && e.user !in db.issued
    requires mid !in db.issued
    requires var m := Lookup(db, e.user, db.invites[e.token].org);
      e.join == if m.Some? then Existing(m.value, 0) else Inserted(mid)
    ensures Permitted(db, e)
  {
  }

  lemma NoChangeWithoutAuthority(s: State, req: Request)
    requires (req.Patch? || req.Remove?) && !Administers(s.db, req.actor, req.org)
    ensures Alone(s, Txn(req, s.now, Start), STATEMENTS) == None
  {
  }
}

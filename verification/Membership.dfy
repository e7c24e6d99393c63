/** Members, invitations and registration as concurrent database transactions.

    A request is a transaction that runs one database statement at a time. Statements read
    what is committed at that moment (READ COMMITTED), a transaction's own writes stay in
    its program counter until commit, and a lock it has taken is kept until commit or rollback.
    A schedule is any sequence of `Action`s; an action that is not possible changes nothing. */
module Membership {
  import opened Base

  type Id = nat
  type Email = string

  datatype Role = Owner | Admin | Member | Viewer

  datatype Row = Row(user: Id, org: Id, role: Role)

  datatype Invite = Invite(
    org: Id, email: Email, role: Role, expires: int, accepted: Option<int>, revoked: Option<int>)

  /** The committed tables. `issued` holds every generated id that was ever committed. */
  datatype Tables = Tables(
    orgs: set<Id>,
    users: map<Email, Id>,
    members: map<Id, Row>,
    invites: map<Id, Invite>,
    issued: set<Id>)

  const EMPTY := Tables({}, map[], map[], map[], {})

  /** Ids among the arguments are the ones the handler generates: `user`, `org` and `mid` of
      `Register`, `user` and `mid` of `Accept`, `token` of `Create`. */
  datatype Request =
    | Register(email: Email, user: Id, org: Id, mid: Id)
    | Accept(token: Id, email: Email, password: Option<string>, user: Id, mid: Id)
    | Patch(actor: Id, org: Id, target: Id, role: Role)
    | Remove(actor: Id, org: Id, target: Id)
    | Create(actor: Id, org: Id, token: Id, email: Email, role: Role)
    | Revoke(actor: Id, org: Id, token: Id)

  datatype Join = Inserted(mid: Id) | Existing(mid: Id, seenAt: nat)

  /** What the check before any lock found: the actor's membership, and how many transactions
      had committed by then. */
  datatype Check = Check(am: Id, seenAt: nat)

  datatype Pc =
    | Start
    | Prechecked(chk: Check)
    // patch_member_role and remove_member
    | Locked
    | Authorized(am: Id, ar: Role)
    | Targeted(am: Id, ar: Role, row: Row)
    | Cleared(am: Id, ar: Role, row: Row)
    | Flushed(am: Id, ar: Role, row: Row)
    // register
    | EmailFree
    | Registering
    // accept_invite
    | Consumed(inv: Invite)
    | NeedUser(inv: Invite)
    | HasUser(inv: Invite, uid: Id, isNew: bool)
    | NeedMember(inv: Invite, uid: Id, isNew: bool)
    | Ready(inv: Invite, uid: Id, isNew: bool, join: Join)
    // revoke_invitation
    | Found(chk: Check, unrevoked: bool)
    | Revoking(chk: Check)

  /** `at` is the clock value the handler read when it started. */
  datatype Txn = Txn(req: Request, at: int, pc: Pc)

  datatype Event =
    | Registered(email: Email, user: Id, org: Id, mid: Id)
    | Accepted(token: Id, at: int, email: Email, user: Id, isNew: bool, join: Join)
    | RoleChanged(actor: Id, am: Id, org: Id, mid: Id, from: Role, to: Role)
    | Removed(actor: Id, am: Id, org: Id, mid: Id, from: Role)
    | Created(actor: Id, chk: Check, token: Id, org: Id, email: Email, role: Role, expires: int)
    | Revoked(actor: Id, chk: Check, org: Id, token: Id, at: int)

  /** `locking` says whether `_lock_membership_change` takes the row lock on the organisation.
      `log` lists the committed transactions in commit order, with the clock at commit. */
  datatype State = State(
    locking: bool, db: Tables, txns: map<Id, Txn>, now: int, log: seq<Event>, times: seq<int>)

  datatype Action = Begin(t: Id, req: Request) | Advance(t: Id) | Abort(t: Id) | Tick(d: nat)

  /** `Fail` ends the transaction without any change to these tables. */
  datatype Outcome = Block | Fail | Goto(pc: Pc) | Commit(event: Event)

  const WEEK := 7 * 24 * 60 * 60 * 1_000_000

  // ----- Locks -----

  datatype Resource =
    | OrgRow(org: Id)
    | MemberRow(mid: Id)
    | TokenRow(token: Id)
    | EmailKey(email: Email)
    | PairKey(user: Id, org: Id)
    | Generated(id: Id)

  function Ids(req: Request): set<Id> {
    match req
    case Register(_, user, org, mid) => {user, org, mid}
    case Accept(_, _, _, user, mid) => {user, mid}
    case Create(_, _, token, _, _) => {token}
    case _ => {}
  }

  /** Everything one transaction keeps others away from: its generated ids and its locks. */
  function Holds(locking: bool, x: Txn): set<Resource> {
    (set i | i in Ids(x.req) :: Generated(i)) + Locks(locking, x)
  }

  /** Row locks and pending unique-index entries. */
  function Locks(locking: bool, x: Txn): set<Resource> {
    match x.pc
    case Locked | Authorized(_, _) | Targeted(_, _, _) | Cleared(_, _, _) =>
      if (x.req.Patch? || x.req.Remove?) && locking then {OrgRow(x.req.org)} else {}
    case Flushed(_, _, _) =>
      if x.req.Patch? || x.req.Remove?
      then (if locking then {OrgRow(x.req.org)} else {}) + {MemberRow(x.req.target)} else {}
    case Registering => if x.req.Register? then {EmailKey(x.req.email)} else {}
    case Consumed(_) => if x.req.Accept? then {TokenRow(x.req.token)} else {}
    case NeedUser(_) => if x.req.Accept? then {TokenRow(x.req.token)} else {}
    case HasUser(_, _, isNew) =>
      if x.req.Accept? then {TokenRow(x.req.token)} + PendingUser(x.req.email, isNew) else {}
    case NeedMember(_, _, isNew) =>
      if x.req.Accept? then {TokenRow(x.req.token)} + PendingUser(x.req.email, isNew) else {}
    case Ready(inv, uid, isNew, join) =>
      if x.req.Accept?
      then {TokenRow(x.req.token)} + PendingUser(x.req.email, isNew)
           + (if join.Inserted? then {PairKey(uid, inv.org)} else {})
      else {}
    case Revoking(_) => if x.req.Revoke? then {TokenRow(x.req.token)} else {}
    case _ => {}
  }

  function PendingUser(email: Email, isNew: bool): set<Resource> {
    if isNew then {EmailKey(email)} else {}
  }

  ghost predicate Free(s: State, t: Id, r: Resource) {
    forall u :: u in s.txns && u != t ==> r !in Holds(s.locking, s.txns[u])
  }

  // ----- Handlers, one statement at a time -----

  function Lower(s: string): string {
    if s == [] then [] else [if 'A' <= s[0] <= 'Z' then s[0] - 'A' + 'a' else s[0]] + Lower(s[1..])
  }

  predicate MayAdminister(role: Role) { role.Owner? || role.Admin? }

  ghost predicate IsMember(db: Tables, m: Id, user: Id, org: Id) {
    m in db.members && db.members[m].user == user && db.members[m].org == org
  }

  ghost function Lookup(db: Tables, user: Id, org: Id): (r: Option<Id>)
    ensures r.Some? ==> IsMember(db, r.value, user, org)
    ensures r.None? ==> forall m :: !IsMember(db, m, user, org)
  {
    if exists m :: IsMember(db, m, user, org) then var m :| IsMember(db, m, user, org); Some(m) else None
  }

  function Owners(db: Tables, org: Id): set<Id> {
    set m | m in db.members && db.members[m].org == org && db.members[m].role.Owner?
  }

  /** `verify_invitation_token`, and the WHERE clause of `consume_invitation_token`. */
  predicate Usable(db: Tables, token: Id, now: int) {
    && token in db.invites
    && db.invites[token].accepted.None?
    && db.invites[token].revoked.None?
    && now < db.invites[token].expires
  }

  /** `requires_role("owner", "admin")`: read before any lock, so it may be out of date later. */
  ghost function Precheck(s: State, actor: Id, org: Id): Outcome {
    var m := Lookup(s.db, actor, org);
    if m.Some? && MayAdminister(s.db.members[m.value].role) then Goto(Prechecked(Check(m.value, |s.log|))) else Fail
  }

  ghost function DecideRegister(s: State, t: Id, x: Txn): Outcome
    requires x.req.Register?
  {
    match x.pc
    case Start => if x.req.email in s.db.users then Fail else Goto(EmailFree)
    case EmailFree =>
      if !Free(s, t, EmailKey(x.req.email)) then Block
      else if x.req.email in s.db.users then Fail
      else Goto(Registering)
    case Registering => Commit(Registered(x.req.email, x.req.user, x.req.org, x.req.mid))
    case _ => Fail
  }

  ghost function DecideAccept(s: State, t: Id, x: Txn): Outcome
    requires x.req.Accept?
  {
    var Accept(token, email, password, user, mid) := x.req;
    match x.pc
    case Start =>
      if !Free(s, t, TokenRow(token)) then Block
      else if Usable(s.db, token, x.at) && Lower(s.db.invites[token].email) == Lower(email)
      then Goto(Consumed(s.db.invites[token]))
      else Fail
    case Consumed(inv) =>
      if email in s.db.users then Goto(HasUser(inv, s.db.users[email], false))
      else if password.None? || |password.value| < 8 then Fail
      else Goto(NeedUser(inv))
    case NeedUser(inv) =>
      if !Free(s, t, EmailKey(email)) then Block
      else if email in s.db.users then Fail
      else Goto(HasUser(inv, user, true))
    case HasUser(inv, uid, isNew) =>
      var m := Lookup(s.db, uid, inv.org);
      if m.Some? then Goto(Ready(inv, uid, isNew, Existing(m.value, |s.log|)))
      else Goto(NeedMember(inv, uid, isNew))
    case NeedMember(inv, uid, isNew) =>
      if !Free(s, t, PairKey(uid, inv.org)) then Block
      else if Lookup(s.db, uid, inv.org).Some? then Fail
      else Goto(Ready(inv, uid, isNew, Inserted(mid)))
    case Ready(inv, uid, isNew, join) => Commit(Accepted(token, x.at, email, uid, isNew, join))
    case _ => Fail
  }

  /** `patch_member_role`, and `remove_member` with `to` absent. */
  ghost function DecideChange(s: State, t: Id, x: Txn, to: Option<Role>): Outcome
    requires x.req.Patch? || x.req.Remove?
  {
    var org, target := x.req.org, x.req.target;
    match x.pc
    case Start => Precheck(s, x.req.actor, org)
    case Prechecked(_) => if s.locking && !Free(s, t, OrgRow(org)) then Block else Goto(Locked)
    case Locked =>
      var m := Lookup(s.db, x.req.actor, org);
      if m.Some? && MayAdminister(s.db.members[m.value].role)
      then Goto(Authorized(m.value, s.db.members[m.value].role))
      else Fail
    case Authorized(am, ar) =>
      if target !in s.db.members || s.db.members[target].org != org then Fail
      else if !ar.Owner? && (s.db.members[target].role.Owner? || to == Some(Owner)) then Fail
      else Goto(Targeted(am, ar, s.db.members[target]))
    case Targeted(am, ar, row) =>
      if row.role.Owner? && to != Some(Owner) && |Owners(s.db, org)| <= 1 then Fail
      else Goto(Cleared(am, ar, row))
    case Cleared(am, ar, row) =>
      if !Free(s, t, MemberRow(target)) then Block
      else if target !in s.db.members then Fail
      else Goto(Flushed(am, ar, row))
    case Flushed(am, ar, row) =>
      Commit(match to
             case Some(role) => RoleChanged(x.req.actor, am, org, target, row.role, role)
             case None => Removed(x.req.actor, am, org, target, row.role))
    case _ => Fail
  }

  /** `create_invitation`; the request schema refuses the role `owner`. */
  ghost function DecideCreate(s: State, x: Txn): Outcome
    requires x.req.Create?
  {
    match x.pc
    case Start => if x.req.role.Owner? then Fail else Precheck(s, x.req.actor, x.req.org)
    case Prechecked(chk) =>
      Commit(Created(x.req.actor, chk, x.req.token, x.req.org, Lower(x.req.email), x.req.role, s.now + WEEK))
    case _ => Fail
  }

  ghost function DecideRevoke(s: State, t: Id, x: Txn): Outcome
    requires x.req.Revoke?
  {
    match x.pc
    case Start => Precheck(s, x.req.actor, x.req.org)
    case Prechecked(chk) =>
      if x.req.token !in s.db.invites || s.db.invites[x.req.token].org != x.req.org then Fail
      else Goto(Found(chk, s.db.invites[x.req.token].revoked.None?))
    case Found(chk, unrevoked) =>
      if !unrevoked then Fail  // commits without a write to this table
      else if !Free(s, t, TokenRow(x.req.token)) then Block
      else Goto(Revoking(chk))
    case Revoking(chk) => Commit(Revoked(x.req.actor, chk, x.req.org, x.req.token, s.now))
    case _ => Fail
  }

  ghost function Decide(s: State, t: Id): Outcome
    requires t in s.txns
  {
    var x := s.txns[t];
    match x.req
    case Register(_, _, _, _) => DecideRegister(s, t, x)
    case Accept(_, _, _, _, _) => DecideAccept(s, t, x)
    case Patch(_, _, _, role) => DecideChange(s, t, x, Some(role))
    case Remove(_, _, _) => DecideChange(s, t, x, None)
    case Create(_, _, _, _, _) => DecideCreate(s, x)
    case Revoke(_, _, _) => DecideRevoke(s, t, x)
  }

  // ----- Committing -----

  function Apply(db: Tables, e: Event): Tables {
    match e
    case Registered(email, user, org, mid) =>
      db.(orgs := db.orgs + {org},
          users := db.users[email := user],
          members := db.members[mid := Row(user, org, Owner)],
          issued := db.issued + {user, org, mid})
    case Accepted(token, at, email, user, isNew, join) =>
      if token !in db.invites then db else
        var inv := db.invites[token];
        db.(invites := db.invites[token := inv.(accepted := Some(at))],
            users := if isNew then db.users[email := user] else db.users,
            members := if join.Inserted? then db.members[join.mid := Row(user, inv.org, inv.role)] else db.members,
            issued := db.issued + (if isNew then {user} else {}) + (if join.Inserted? then {join.mid} else {}))
    case RoleChanged(_, _, _, mid, _, to) =>
      if mid in db.members then db.(members := db.members[mid := db.members[mid].(role := to)]) else db
    case Removed(_, _, _, mid, _) => db.(members := db.members - {mid})
    case Created(_, _, token, org, email, role, expires) =>
      db.(invites := db.invites[token := Invite(org, email, role, expires, None, None)],
          issued := db.issued + {token})
    case Revoked(_, _, _, token, at) =>
      if token in db.invites then db.(invites := db.invites[token := db.invites[token].(revoked := Some(at))]) else db
  }

  function Replay(log: seq<Event>): Tables {
    if log == [] then EMPTY else Apply(Replay(log[..|log| - 1]), log[|log| - 1])
  }

  function Drop(s: State, t: Id): State { s.(txns := s.txns - {t}) }

  ghost function Next(s: State, a: Action): State {
    match a
    case Tick(d) => s.(now := s.now + d)
    case Abort(t) => Drop(s, t)
    case Begin(t, req) =>
      if t !in s.txns && Ids(req) !! s.db.issued && (forall i :: i in Ids(req) ==> Free(s, t, Generated(i)))
      then s.(txns := s.txns[t := Txn(req, s.now, Start)])
      else s
    case Advance(t) =>
      if t !in s.txns then s else
        match Decide(s, t)
        case Block => s
        case Fail => Drop(s, t)
        case Goto(pc) => s.(txns := s.txns[t := s.txns[t].(pc := pc)])
        case Commit(e) => Drop(s, t).(db := Apply(s.db, e), log := s.log + [e], times := s.times + [s.now])
  }

  ghost function Run(s: State, schedule: seq<Action>): State {
    if schedule == [] then s else Next(Run(s, schedule[..|schedule| - 1]), schedule[|schedule| - 1])
  }

  function Init(locking: bool): State { State(locking, EMPTY, map[], 0, [], []) }
}

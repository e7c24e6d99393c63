/** Password-reset tokens as concurrent transactions, in the same style as `Membership`:
    `forgot_password` and `reset_password` run one statement at a time under READ COMMITTED,
    and row locks are kept until commit or rollback. */
module ResetTokens {
  import opened Base

  type Id = nat
  type Email = string

  datatype Token = Token(user: Id, expires: int, consumed: Option<int>)

  datatype Tables = Tables(tokens: map<Id, Token>, passwords: map<Id, string>)

  const EMPTY := Tables(map[], map[])

  /** `token` of `Forgot` is the generated token. */
  datatype Request = Forgot(email: Email, token: Id) | Reset(token: Id, password: string)

  /** `reset_password`: the token is consumed; the bulk update has taken its snapshot of the
      user's unconsumed tokens; it has locked and marked those that still were; the password
      is written. */
  datatype Pc =
    | Start
    | Requesting(user: Id)
    | Consumed(user: Id)
    | Snapshot(user: Id, tokens: set<Id>, seenAt: nat)
    | Invalidated(user: Id, tokens: set<Id>, seenAt: nat)
    | Flushed(user: Id, tokens: set<Id>, seenAt: nat)

  datatype Txn = Txn(req: Request, at: int, pc: Pc)

  datatype Event =
    | Requested(token: Id, user: Id, expires: int)
    | WasReset(token: Id, at: int, user: Id, password: string, invalidated: set<Id>, seenAt: nat)

  datatype State = State(users: map<Email, Id>, db: Tables, txns: map<Id, Txn>, now: int, log: seq<Event>)

  datatype Action = Begin(t: Id, req: Request) | Advance(t: Id) | Abort(t: Id) | Tick(d: nat)

  /** `Fail` ends the transaction without any change to these tables. */
  datatype Outcome = Block | Fail | Goto(pc: Pc) | Commit(event: Event)

  datatype Resource = TokenRow(token: Id) | UserRow(user: Id) | Generated(id: Id)

  const HOUR := 60 * 60 * 1_000_000

  function Holds(x: Txn): set<Resource> {
    if x.req.Forgot? then {Generated(x.req.token)} else
      match x.pc
      case Consumed(_) => {TokenRow(x.req.token)}
      case Snapshot(_, _, _) => {TokenRow(x.req.token)}
      case Invalidated(_, tokens, _) => {TokenRow(x.req.token)} + (set k | k in tokens :: TokenRow(k))
      case Flushed(user, tokens, _) =>
        {TokenRow(x.req.token), UserRow(user)} + (set k | k in tokens :: TokenRow(k))
      case _ => {}
  }

  ghost predicate Free(s: State, t: Id, r: Resource) {
    forall u :: u in s.txns && u != t ==> r !in Holds(s.txns[u])
  }

  /** `verify_reset_token`, and the WHERE clause of `consume_reset_token`. */
  predicate Usable(db: Tables, token: Id, now: int) {
    token in db.tokens && db.tokens[token].consumed.None? && now < db.tokens[token].expires
  }

  /** Tokens of `user` that the bulk update would mark. */
  function Unconsumed(db: Tables, user: Id): set<Id> {
    set k | k in db.tokens && db.tokens[k].user == user && db.tokens[k].consumed.None?
  }

  ghost function Decide(s: State, t: Id): Outcome
    requires t in s.txns
  {
    var x := s.txns[t];
    match x.req
    case Forgot(email, token) => (
      match x.pc
      case Start => if email in s.users then Goto(Requesting(s.users[email])) else Fail
      case Requesting(user) => Commit(Requested(token, user, x.at + HOUR))
      case _ => Fail)
    case Reset(token, password) =>
      match x.pc
      case Start =>
        if !Free(s, t, TokenRow(token)) then Block
        else if Usable(s.db, token, x.at) then Goto(Consumed(s.db.tokens[token].user))
        else Fail
      case Consumed(user) => Goto(Snapshot(user, Unconsumed(s.db, user) - {token}, |s.log|))
      case Snapshot(user, tokens, seenAt) =>
        if forall k :: k in tokens ==> Free(s, t, TokenRow(k))
        then Goto(Invalidated(user, tokens * Unconsumed(s.db, user), seenAt))
        else Block
      case Invalidated(user, tokens, seenAt) =>
        if Free(s, t, UserRow(user)) then Goto(Flushed(user, tokens, seenAt)) else Block
      case Flushed(user, tokens, seenAt) => Commit(WasReset(token, x.at, user, password, tokens, seenAt))
      case _ => Fail
  }

  function Apply(db: Tables, e: Event): Tables {
    match e
    case Requested(token, user, expires) => db.(tokens := db.tokens[token := Token(user, expires, None)])
    case WasReset(token, at, user, password, invalidated, _) =>
      Tables(
        map k | k in db.tokens ::
          if k == token || k in invalidated then db.tokens[k].(consumed := Some(at)) else db.tokens[k],
        db.passwords[user := password])
  }

  function Replay(log: seq<Event>): Tables {
    if log == [] then EMPTY else Apply(Replay(log[..|log| - 1]), log[|log| - 1])
  }

  function Drop(s: State, t: Id): State { s.(txns := s.txns - {t}) }

  ghost function Next(s: State, a: Action): State {
    match a
    case Tick(d) => s.(now := s.now + d)
    case Abort(t) => Drop(s, t)
    case Begin(t, req) =>
      if t !in s.txns
         && (req.Forgot? ==> req.token !in s.db.tokens && Free(s, t, Generated(req.token)))
      then s.(txns := s.txns[t := Txn(req, s.now, Start)])
      else s
    case Advance(t) =>
      if t !in s.txns then s else
        match Decide(s, t)
        case Block => s
        case Fail => Drop(s, t)
        case Goto(pc) => s.(txns := s.txns[t := s.txns[t].(pc := pc)])
        case Commit(e) => Drop(s, t).(db := Apply(s.db, e), log := s.log + [e])
  }

  ghost function Run(s: State, schedule: seq<Action>): State {
    if schedule == [] then s else Next(Run(s, schedule[..|schedule| - 1]), schedule[|schedule| - 1])
  }

  function Init(users: map<Email, Id>): State { State(users, EMPTY, map[], 0, []) }

  // ----- Sequential histories -----

  ghost predicate Permitted(db: Tables, e: Event) {
    match e
    case Requested(token, _, _) => token !in db.tokens
    case WasReset(token, at, user, _, invalidated, _) =>
      && Usable(db, token, at) && db.tokens[token].user == user
      && invalidated <= Unconsumed(db, user) - {token}
  }

  /** Beyond being permitted, a reset marks every token its snapshot saw, unless another
      transaction consumed it first. */
  ghost predicate Legal(log: seq<Event>, e: Event) {
    && Permitted(Replay(log), e)
    && (e.WasReset? ==>
          && e.seenAt <= |log| && e.token in Replay(log[..e.seenAt]).tokens
          && Replay(log[..e.seenAt]).tokens.Keys * Unconsumed(Replay(log), e.user) <= e.invalidated + {e.token}
          && e.invalidated <= Replay(log[..e.seenAt]).tokens.Keys)
  }

  ghost predicate LegalLog(log: seq<Event>) {
    forall i {:trigger Legal(log[..i], log[i])} :: 0 <= i < |log| ==> Legal(log[..i], log[i])
  }

  lemma ReplaySnoc(log: seq<Event>, e: Event)
    ensures Replay(log + [e]) == Apply(Replay(log), e)
  {
  }

  lemma LegalSnoc(log: seq<Event>, e: Event)
    requires LegalLog(log) && Legal(log, e)
    ensures LegalLog(log + [e])
  {
    forall i | 0 <= i < |log + [e]| ensures Legal((log + [e])[..i], (log + [e])[i]) {
      assert (log + [e])[..i] == log[..i];
      assert log[..|log|] == log;
    }
  }

  lemma ReplayPrefix(log: seq<Event>, n: nat)
    requires n < |log|
    ensures Replay(log[..n + 1]) == Apply(Replay(log[..n]), log[n])
  {
    assert log[..n + 1] == log[..n] + [log[n]];
    ReplaySnoc(log[..n], log[n]);
  }

  /** Tokens stay, keep their user, and never become unconsumed again. */
  ghost predicate Later(db: Tables, db': Tables) {
    forall k :: k in db.tokens ==>
      && k in db'.tokens && db'.tokens[k].user == db.tokens[k].user
      && db'.tokens[k].expires == db.tokens[k].expires
      && (db.tokens[k].consumed.Some? ==> db'.tokens[k].consumed.Some?)
  }

  lemma LaterAfter(db: Tables, e: Event)
    requires Permitted(db, e)
    ensures Later(db, Apply(db, e))
  {
  }

  lemma {:induction false} LaterInLog(log: seq<Event>, i: nat, j: nat)
    requires LegalLog(log) && i <= j <= |log|
    ensures Later(Replay(log[..i]), Replay(log[..j]))
    decreases j
  {
    if i < j {
      LaterInLog(log, i, j - 1);
      ReplayPrefix(log, j - 1);
      assert Legal(log[..j - 1], log[j - 1]);
      LaterAfter(Replay(log[..j - 1]), log[j - 1]);
    }
  }

  // ----- The invariant -----

  ghost predicate ResetOk(log: seq<Event>, x: Txn, user: Id)
    requires x.req.Reset?
  {
    Usable(Replay(log), x.req.token, x.at) && Replay(log).tokens[x.req.token].user == user
  }

  /** The snapshot was taken after `seenAt` commits, and nothing it left out was there then. */
  ghost predicate SnapshotOk(log: seq<Event>, x: Txn, user: Id, tokens: set<Id>, seenAt: nat)
    requires x.req.Reset?
  {
    && seenAt <= |log| && x.req.token in Replay(log[..seenAt]).tokens
    && tokens == Unconsumed(Replay(log[..seenAt]), user) - {x.req.token}
  }

  /** What is marked is still unconsumed, and is all of the snapshot that was. */
  ghost predicate MarkedOk(log: seq<Event>, x: Txn, user: Id, tokens: set<Id>, seenAt: nat)
    requires x.req.Reset?
  {
    && seenAt <= |log| && x.req.token in Replay(log[..seenAt]).tokens
    && tokens <= Unconsumed(Replay(log), user) - {x.req.token}
    && Replay(log[..seenAt]).tokens.Keys * Unconsumed(Replay(log), user) <= tokens + {x.req.token}
    && tokens <= Replay(log[..seenAt]).tokens.Keys
  }

  ghost predicate TxnOk(log: seq<Event>, x: Txn) {
    match x.req
    case Forgot(_, token) => token !in Replay(log).tokens
    case Reset(_, _) =>
      match x.pc
      case Consumed(user) => ResetOk(log, x, user)
      case Snapshot(user, tokens, seenAt) => ResetOk(log, x, user) && SnapshotOk(log, x, user, tokens, seenAt)
      case Invalidated(user, tokens, seenAt) => ResetOk(log, x, user) && MarkedOk(log, x, user, tokens, seenAt)
      case Flushed(user, tokens, seenAt) => ResetOk(log, x, user) && MarkedOk(log, x, user, tokens, seenAt)
      case _ => true
  }

  ghost predicate Inv(s: State) {
    && s.db == Replay(s.log)
    && LegalLog(s.log)
    && (forall t :: t in s.txns ==> TxnOk(s.log, s.txns[t]))
    && (forall t, u :: t in s.txns && u in s.txns && t != u ==> Holds(s.txns[t]) !! Holds(s.txns[u]))
  }

  function Guards(e: Event): set<Resource> {
    match e
    case Requested(token, _, _) => {Generated(token)}
    case WasReset(token, _, _, _, invalidated, _) => {TokenRow(token)} + (set k | k in invalidated :: TokenRow(k))
  }

  lemma HeldTokenStable(db: Tables, e: Event, token: Id)
    requires Permitted(db, e) && token in db.tokens && TokenRow(token) !in Guards(e)
    ensures token in Apply(db, e).tokens && Apply(db, e).tokens[token] == db.tokens[token]
  {
  }

  lemma MarkedStable(log: seq<Event>, e: Event, y: Txn, user: Id, tokens: set<Id>, seenAt: nat)
    requires LegalLog(log) && Legal(log, e) && y.req.Reset?
    requires MarkedOk(log, y, user, tokens, seenAt)
    requires forall k :: k in tokens ==> TokenRow(k) !in Guards(e)
    ensures MarkedOk(log + [e], y, user, tokens, seenAt)
  {
    var db, after := Replay(log), Apply(Replay(log), e);
    ReplaySnoc(log, e);
    assert (log + [e])[..seenAt] == log[..seenAt];
    forall k | k in tokens ensures k in Unconsumed(after, user) {
      HeldTokenStable(db, e, k);
    }
    LaterInLog(log, seenAt, |log|);
    assert log[..|log|] == log;
    var seen := Replay(log[..seenAt]).tokens.Keys;
    forall k | k in seen * Unconsumed(after, user) ensures k in seen * Unconsumed(db, user) {
      LaterAfter(db, e);
    }
  }

  lemma TxnStable(log: seq<Event>, e: Event, y: Txn)
    requires LegalLog(log) && Legal(log, e) && TxnOk(log, y)
    requires Guards(e) !! Holds(y)
    ensures TxnOk(log + [e], y)
  {
    ReplaySnoc(log, e);
    if y.req.Reset? && !y.pc.Start? && !y.pc.Requesting? {
      assert TokenRow(y.req.token) in Holds(y);
      HeldTokenStable(Replay(log), e, y.req.token);
      if y.pc.Snapshot? {
        assert (log + [e])[..y.pc.seenAt] == log[..y.pc.seenAt];
      }
      if y.pc.Invalidated? || y.pc.Flushed? {
        forall k | k in y.pc.tokens ensures TokenRow(k) !in Guards(e) {
          assert TokenRow(k) in Holds(y);
        }
        MarkedStable(log, e, y, y.pc.user, y.pc.tokens, y.pc.seenAt);
      }
    } else if y.req.Forgot? {
      assert Generated(y.req.token) in Holds(y);
    }
  }

  lemma GotoOk(s: State, t: Id)
    requires Inv(s) && t in s.txns && Decide(s, t).Goto?
    ensures TxnOk(s.log, s.txns[t].(pc := Decide(s, t).pc))
  {
    var x := s.txns[t];
    assert TxnOk(s.log, x);
    assert s.log[..|s.log|] == s.log;
    if x.req.Reset? && x.pc.Snapshot? {
      LaterInLog(s.log, x.pc.seenAt, |s.log|);
    }
  }

  lemma GotoHolds(s: State, t: Id, u: Id)
    requires t in s.txns && u in s.txns && t != u && Decide(s, t).Goto?
    requires Holds(s.txns[t]) !! Holds(s.txns[u])
    ensures Holds(s.txns[t].(pc := Decide(s, t).pc)) !! Holds(s.txns[u])
  {
  }

  lemma CommitKeepsInv(s: State, t: Id)
    requires Inv(s) && t in s.txns && Decide(s, t).Commit?
    ensures Inv(Next(s, Advance(t)))
  {
    var e := Decide(s, t).event;
    assert TxnOk(s.log, s.txns[t]);
    assert Legal(s.log, e);
    LegalSnoc(s.log, e);
    ReplaySnoc(s.log, e);
    assert Guards(e) <= Holds(s.txns[t]);
    OthersStable(s, t, e);
  }

  lemma OthersStable(s: State, t: Id, e: Event)
    requires Inv(s) && t in s.txns && Legal(s.log, e) && Guards(e) <= Holds(s.txns[t])
    ensures forall u :: u in s.txns && u != t ==> TxnOk(s.log + [e], s.txns[u])
  {
    forall u | u in s.txns && u != t ensures TxnOk(s.log + [e], s.txns[u]) {
      assert Holds(s.txns[t]) !! Holds(s.txns[u]);
      TxnStable(s.log, e, s.txns[u]);
    }
  }

  lemma NextKeepsInv(s: State, a: Action)
    requires Inv(s)
    ensures Inv(Next(s, a))
  {
    if a.Advance? && a.t in s.txns {
      var t := a.t;
      match Decide(s, t)
      case Goto(pc) =>
        GotoOk(s, t);
        forall u | u in s.txns && u != t ensures Holds(s.txns[t].(pc := pc)) !! Holds(s.txns[u]) {
          GotoHolds(s, t, u);
        }
      case Commit(_) => CommitKeepsInv(s, t);
      case _ =>
    }
  }

  lemma {:induction false} RunKeepsInv(users: map<Email, Id>, schedule: seq<Action>)
    ensures Inv(Run(Init(users), schedule))
  {
    if schedule != [] {
      RunKeepsInv(users, schedule[..|schedule| - 1]);
      NextKeepsInv(Run(Init(users), schedule[..|schedule| - 1]), schedule[|schedule| - 1]);
    }
  }

  // ----- Guarantees -----

  /** No token is spent by two committed resets, whether as the token presented or as one that
      was invalidated, and a reset is decided before its token expires. */
  lemma TokenSpentAtMostOnce(users: map<Email, Id>, schedule: seq<Action>, i: nat, j: nat)
    requires i < j < |Run(Init(users), schedule).log|
    requires var log := Run(Init(users), schedule).log; log[i].WasReset? && log[j].WasReset?
    ensures var log := Run(Init(users), schedule).log;
            && {log[i].token} + log[i].invalidated !! {log[j].token} + log[j].invalidated
            && log[j].token in Replay(log[..j]).tokens
            && log[j].at < Replay(log[..j]).tokens[log[j].token].expires
  {
    RunKeepsInv(users, schedule);
    ResetsSpendDifferentTokens(Run(Init(users), schedule).log, i, j);
  }

  lemma ResetsSpendDifferentTokens(log: seq<Event>, i: nat, j: nat)
    requires LegalLog(log) && i < j < |log| && log[i].WasReset? && log[j].WasReset?
    ensures {log[i].token} + log[i].invalidated !! {log[j].token} + log[j].invalidated
    ensures log[j].token in Replay(log[..j]).tokens
    ensures log[j].at < Replay(log[..j]).tokens[log[j].token].expires
  {
    assert Legal(log[..i], log[i]) && Legal(log[..j], log[j]);
    ReplayPrefix(log, i);
    LaterInLog(log, i + 1, j);
    SpentThenUnspent(Replay(log[..i]), log[i], Replay(log[..j]), log[j]);
  }

  lemma SpentThenUnspent(db: Tables, e: Event, db': Tables, e': Event)
    requires e.WasReset? && e'.WasReset? && Permitted(db, e) && Permitted(db', e') && Later(Apply(db, e), db')
    ensures {e.token} + e.invalidated !! {e'.token} + e'.invalidated
  {
  }

  /** After a committed reset, a token of the same user is unconsumed if and only if it was
      unconsumed just before and is newer than the snapshot of the bulk update. */
  lemma ResetLeavesOnlyNewerTokens(users: map<Email, Id>, schedule: seq<Action>, i: nat)
    requires i < |Run(Init(users), schedule).log| && Run(Init(users), schedule).log[i].WasReset?
    ensures var log := Run(Init(users), schedule).log; log[i].seenAt <= i
    ensures var log := Run(Init(users), schedule).log;
            Unconsumed(Replay(log[..i + 1]), log[i].user)
            == Unconsumed(Replay(log[..i]), log[i].user) - Replay(log[..log[i].seenAt]).tokens.Keys
  {
    RunKeepsInv(users, schedule);
    var log := Run(Init(users), schedule).log;
    var e := log[i];
    assert Legal(log[..i], e);
    ReplayPrefix(log, i);
    assert log[..i][..e.seenAt] == log[..e.seenAt];
  }

  /** Reset `i` is the last one of `user` and it presented a token issued to that user. */
  ghost predicate LastReset(log: seq<Event>, i: nat, user: Id)
    requires i < |log|
  {
    && log[i].WasReset? && log[i].user == user
    && (forall j :: i < j < |log| ==> !(log[j].WasReset? && log[j].user == user))
    && Usable(Replay(log[..i]), log[i].token, log[i].at)
    && Replay(log[..i]).tokens[log[i].token].user == user
  }

  lemma LastResetExtends(log: seq<Event>, i: nat, user: Id)
    requires |log| > 0 && i < |log| - 1 && LastReset(log[..|log| - 1], i, user)
    requires !(log[|log| - 1].WasReset? && log[|log| - 1].user == user)
    ensures LastReset(log, i, user)
  {
    var front := log[..|log| - 1];
    assert front[..i] == log[..i];
    forall j | i < j < |log| ensures !(log[j].WasReset? && log[j].user == user) {
      assert j < |front| ==> front[j] == log[j];
    }
  }

  lemma LegalPrefix(log: seq<Event>, n: nat)
    requires LegalLog(log) && n <= |log|
    ensures LegalLog(log[..n])
  {
    forall i | 0 <= i < n ensures Legal(log[..n][..i], log[..n][i]) {
      assert log[..n][..i] == log[..i];
    }
  }

  lemma {:induction false} PasswordInLog(log: seq<Event>, user: Id)
    requires LegalLog(log) && user in Replay(log).passwords
    ensures exists i: nat :: i < |log| && LastReset(log, i, user) && log[i].password == Replay(log).passwords[user]
  {
    var n := |log| - 1;
    assert Legal(log[..n], log[n]);
    if log[n].WasReset? && log[n].user == user {
      assert LastReset(log, n, user);
    } else {
      LegalPrefix(log, n);
      assert Replay(log).passwords == Replay(log[..n]).passwords || log[n].WasReset?;
      PasswordInLog(log[..n], user);
      var i: nat :| i < n && LastReset(log[..n], i, user) && log[..n][i].password == Replay(log[..n]).passwords[user];
      LastResetExtends(log, i, user);
    }
  }

  /** A stored password is the one of the user's last committed reset, which presented a live
      token issued to that user. */
  lemma PasswordIsFromLastReset(users: map<Email, Id>, schedule: seq<Action>, user: Id)
    requires user in Run(Init(users), schedule).db.passwords
    ensures var s := Run(Init(users), schedule);
            exists i: nat :: i < |s.log| && LastReset(s.log, i, user) && s.log[i].password == s.db.passwords[user]
  {
    RunKeepsInv(users, schedule);
    PasswordInLog(Run(Init(users), schedule).log, user);
  }

  /** While `t` holds a token it has consumed, a second reset `u` waits; a rollback of `t`
      leaves the token to `u`, a commit refuses it. */
  lemma RollbackLeavesTokenUsable(s: State, t: Id, u: Id)
    requires Inv(s) && t in s.txns && u in s.txns && t != u
    requires s.txns[t].req.Reset? && !s.txns[t].pc.Start? && !s.txns[t].pc.Requesting?
    requires s.txns[u].req.Reset? && s.txns[u].pc == Start && s.txns[u].req.token == s.txns[t].req.token
    ensures Decide(s, u) == Block
    ensures Next(s, Abort(t)).db == s.db
    ensures s.txns[t].req.token in s.db.tokens
    ensures var y, k := s.txns[u], s.db.tokens[s.txns[t].req.token];
            Decide(Next(s, Abort(t)), u) == if y.at < k.expires then Goto(Consumed(k.user)) else Fail
    ensures Decide(s, t).Commit? ==> Decide(Next(s, Advance(t)), u) == Fail
  {
    var x := s.txns[t];
    assert TxnOk(s.log, x);
    assert TokenRow(x.req.token) in Holds(x);
    var s' := Next(s, Abort(t));
    assert Free(s', u, TokenRow(x.req.token)) by {
      forall v | v in s'.txns && v != u ensures TokenRow(x.req.token) !in Holds(s'.txns[v]) {
        assert Holds(s.txns[v]) !! Holds(x);
      }
    }
    if Decide(s, t).Commit? {
      assert Free(Next(s, Advance(t)), u, TokenRow(x.req.token));
    }
  }

  // ----- A token requested while a reset is under way -----

  const USERS: map<Email, Id> := map["a" := 1]

  lemma RunSnoc(s: State, a: seq<Action>, x: Action)
    ensures Run(s, a + [x]) == Next(Run(s, a), x)
  {
  }

  function FirstRequest(): seq<Action> {
    [Begin(1, Forgot("a", 100))] + [Advance(1)] + [Advance(1)]
  }

  function ResetStarted(): seq<Action> {
    FirstRequest() + [Begin(2, Reset(100, "password"))] + [Advance(2)] + [Advance(2)]
  }

  function SecondRequest(): seq<Action> {
    ResetStarted() + [Begin(3, Forgot("a", 101))] + [Advance(3)] + [Advance(3)]
  }

  function ResetFinished(): seq<Action> {
    SecondRequest() + [Advance(2)] + [Advance(2)] + [Advance(2)]
  }

  function Issued(token: Id): Event { Requested(token, 1, HOUR) }

  function Resetting(pc: Pc, tokens: map<Id, Token>, log: seq<Event>): State {
    State(USERS, Tables(tokens, map[]), map[2 := Txn(Reset(100, "password"), 0, pc)], 0, log)
  }

  lemma RequestCommits(s: State, t: Id, token: Id)
    requires t !in s.txns && s.users == USERS && s.now == 0 && token !in s.db.tokens
    requires Free(s, t, Generated(token))
    ensures Next(Next(Next(s, Begin(t, Forgot("a", token))), Advance(t)), Advance(t))
            == s.(db := Apply(s.db, Issued(token)), log := s.log + [Issued(token)])
  {
  }

  lemma FirstRequestCommits()
    ensures Run(Init(USERS), FirstRequest())
            == State(USERS, Tables(map[100 := Token(1, HOUR, None)], map[]), map[], 0, [Issued(100)])
  {
    var s := Init(USERS);
    assert Run(s, []) == s;
    assert [] + [Begin(1, Forgot("a", 100))] == [Begin(1, Forgot("a", 100))];
    RunSnoc(s, [], Begin(1, Forgot("a", 100)));
    RunSnoc(s, [Begin(1, Forgot("a", 100))], Advance(1));
    RunSnoc(s, [Begin(1, Forgot("a", 100))] + [Advance(1)], Advance(1));
    RequestCommits(s, 1, 100);
  }

  lemma ResetTakesItsSnapshot()
    ensures Run(Init(USERS), ResetStarted())
            == Resetting(Snapshot(1, {}, 1), map[100 := Token(1, HOUR, None)], [Issued(100)])
  {
    var s, req := Init(USERS), Reset(100, "password");
    FirstRequestCommits();
    RunSnoc(s, FirstRequest(), Begin(2, req));
    RunSnoc(s, FirstRequest() + [Begin(2, req)], Advance(2));
    RunSnoc(s, FirstRequest() + [Begin(2, req)] + [Advance(2)], Advance(2));
    var s1 := Next(Run(s, FirstRequest()), Begin(2, req));
    assert s1 == Resetting(Start, map[100 := Token(1, HOUR, None)], [Issued(100)]);
    var s2 := Next(s1, Advance(2));
    assert s2.txns == map[2 := Txn(req, 0, Consumed(1))];
    assert Unconsumed(s2.db, 1) - {100} == {};
    assert Next(s2, Advance(2)).txns == map[2 := Txn(req, 0, Snapshot(1, {}, 1))];
  }

  lemma ResetCommits(s: State)
    requires s.txns == map[2 := Txn(Reset(100, "password"), 0, Snapshot(1, {}, 1))]
    ensures Next(Next(Next(s, Advance(2)), Advance(2)), Advance(2))
            == s.(txns := map[], db := Apply(s.db, WasReset(100, 0, 1, "password", {}, 1)),
                  log := s.log + [WasReset(100, 0, 1, "password", {}, 1)])
  {
    var req := Reset(100, "password");
    var s1 := Next(s, Advance(2));
    assert {} * Unconsumed(s.db, 1) == {};
    assert s1.txns == map[2 := Txn(req, 0, Invalidated(1, {}, 1))];
    var s2 := Next(s1, Advance(2));
    assert s2.txns == map[2 := Txn(req, 0, Flushed(1, {}, 1))];
  }

  const TOKENS := map[100 := Token(1, HOUR, None), 101 := Token(1, HOUR, None)]

  lemma SecondRequestCommits()
    ensures Run(Init(USERS), SecondRequest()) == Resetting(Snapshot(1, {}, 1), TOKENS, [Issued(100), Issued(101)])
  {
    var s := Init(USERS);
    ResetTakesItsSnapshot();
    RunSnoc(s, ResetStarted(), Begin(3, Forgot("a", 101)));
    RunSnoc(s, ResetStarted() + [Begin(3, Forgot("a", 101))], Advance(3));
    RunSnoc(s, ResetStarted() + [Begin(3, Forgot("a", 101))] + [Advance(3)], Advance(3));
    RequestCommits(Run(s, ResetStarted()), 3, 101);
    assert [Issued(100)] + [Issued(101)] == [Issued(100), Issued(101)];
  }

  /** The reset commits after token 101, yet leaves it usable. */
  lemma ResetCanLeaveAnEarlierTokenUsable()
    ensures var s := Run(Init(USERS), ResetFinished());
            && |s.log| == 3 && s.log[1] == Issued(101)
            && s.log[2].WasReset? && s.log[2].user == s.log[1].user
            && Usable(s.db, 101, s.now)
  {
    var s := Init(USERS);
    SecondRequestCommits();
    RunSnoc(s, SecondRequest(), Advance(2));
    RunSnoc(s, SecondRequest() + [Advance(2)], Advance(2));
    RunSnoc(s, SecondRequest() + [Advance(2)] + [Advance(2)], Advance(2));
    ResetCommits(Resetting(Snapshot(1, {}, 1), TOKENS, [Issued(100), Issued(101)]));
  }
}

/** The password-reset handlers as they are written, each running with no other transaction in between. */
module ResetHandlers {
  import opened Base
  import opened ResetTokens

  function Solo(users: map<Email, Id>, db: Tables, x: Txn): State { State(users, db, map[0 := x], x.at, []) }

  /** What `x` commits when `n` statements of it run and nothing else does. */
  ghost function Alone(users: map<Email, Id>, db: Tables, x: Txn, n: nat): Option<Event>
    decreases n
  {
    if n == 0 then None
    else match Decide(Solo(users, db, x), 0)
      case Block => None
      case Fail => None
      case Commit(e) => Some(e)
      case Goto(pc) => Alone(users, db, x.(pc := pc), n - 1)
  }

  function ApplyAny(db: Tables, e: Option<Event>): Tables { if e.Some? then Apply(db, e.value) else db }

  /** Five statements are as many as either transaction has. */
  const STATEMENTS: nat := 5

  lemma StatementAlone(users: map<Email, Id>, db: Tables, x: Txn, pc: Pc, n: nat)
    requires n > 0 && Decide(Solo(users, db, x), 0) == Goto(pc)
    ensures Alone(users, db, x, n) == Alone(users, db, x.(pc := pc), n - 1)
  {
  }

  lemma ForgotAlone(users: map<Email, Id>, db: Tables, email: Email, token: Id, at: int)
    ensures Alone(users, db, Txn(Forgot(email, token), at, Start), STATEMENTS)
         == if email in users then Some(Requested(token, users[email], at + HOUR)) else None
  {
  }

  lemma ResetAlone(users: map<Email, Id>, db: Tables, token: Id, password: string, at: int)
    ensures Alone(users, db, Txn(Reset(token, password), at, Start), STATEMENTS)
         == if !Usable(db, token, at) then None
            else
              var user := db.tokens[token].user;
              Some(WasReset(token, at, user, password, Unconsumed(db, user) - {token}, 0))
  {
    if Usable(db, token, at) {
      var x := Txn(Reset(token, password), at, Start);
      var user := db.tokens[token].user;
      var others := Unconsumed(db, user) - {token};
      StatementAlone(users, db, x, Consumed(user), 5);
      StatementAlone(users, db, x.(pc := Consumed(user)), Snapshot(user, others, 0), 4);
      assert others * Unconsumed(db, user) == others;
      StatementAlone(users, db, x.(pc := Snapshot(user, others, 0)), Invalidated(user, others, 0), 3);
      StatementAlone(users, db, x.(pc := Invalidated(user, others, 0)), Flushed(user, others, 0), 2);
    }
  }

  class Accounts {
    var users: map<Email, Id>
    var tokens: map<Id, Token>
    var passwords: map<Id, string>

    function View(): Tables reads this { Tables(tokens, passwords) }

    constructor (users: map<Email, Id>)
      ensures this.users == users && View() == EMPTY
    {
      this.users, tokens, passwords := users, map[], map[];
    }

    method ForgotPassword(email: Email, token: Id, at: int) returns (r: Option<Event>)
      requires token !in tokens
      modifies this`tokens
      ensures r == Alone(users, old(View()), Txn(Forgot(email, token), at, Start), STATEMENTS)
      ensures View() == ApplyAny(old(View()), r)
      ensures forall k :: k in old(tokens) ==> k in tokens && tokens[k] == old(tokens)[k]
    {
      ForgotAlone(users, View(), email, token, at);
      if email !in users {
        return None;
      }
      r := Some(Requested(token, users[email], at + HOUR));
      tokens := tokens[token := Token(users[email], at + HOUR, None)];
    }

    /** `consume_reset_token`: one conditional update. */
    method Consume(token: Id, at: int) returns (user: Option<Id>)
      modifies this`tokens
      ensures user == if Usable(old(View()), token, at) then Some(old(tokens)[token].user) else None
      ensures tokens == if user.Some? then old(tokens)[token := old(tokens)[token].(consumed := Some(at))]
                        else old(tokens)
    {
      if !Usable(View(), token, at) {
        return None;
      }
      user := Some(tokens[token].user);
      tokens := tokens[token := tokens[token].(consumed := Some(at))];
    }

    /** With nothing interleaved, a reset leaves its user no token that could still be used. */
    method ResetPassword(token: Id, password: string, at: int) returns (r: Option<Event>)
      modifies this`tokens, this`passwords
      ensures r == Alone(users, old(View()), Txn(Reset(token, password), at, Start), STATEMENTS)
      ensures View() == ApplyAny(old(View()), r)
      ensures r.Some? ==> Unconsumed(View(), r.value.user) == {} && passwords[r.value.user] == password
    {
      ghost var before := View();
      ResetAlone(users, before, token, password, at);
      var consumed := Consume(token, at);
      if consumed.None? {
        return None;
      }
      var user := consumed.value;
      passwords := passwords[user := password];
      var others := Unconsumed(View(), user);
      assert others == Unconsumed(before, user) - {token};
      tokens := map k | k in tokens :: if k in others then tokens[k].(consumed := Some(at)) else tokens[k];
      r := Some(WasReset(token, at, user, password, others, 0));
      assert tokens == Apply(before, r.value).tokens;
    }
  }
}

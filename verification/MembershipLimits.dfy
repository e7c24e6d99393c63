/** Schedules that show what the membership protocol does not guarantee: without the row lock
    an organisation can lose every owner, an acceptance that inserts nothing, or that waits before
    it commits, can outlive the membership or the expiry it had seen, and an invitation can be
    created by someone whose authority is gone. */
module MembershipLimits {
  import opened Base
  import opened Membership
  import opened MembershipSafety
  import opened MembershipTheorems
  import opened MembershipHandlers
  import opened MembershipHistory

  // ----- User 1 registers organisation 2; user 5 joins it by invitation 4 as membership 6 -----

  const REGISTER := Request.Register("a", 1, 2, 3)
  const INVITE := Request.Create(1, 2, 4, "b", Member)
  const ACCEPT := Request.Accept(4, "b", Some("password"), 5, 6)

  function Prologue(): seq<Event> {
    [Registered("a", 1, 2, 3), Created(1, Check(3, 1), 4, 2, "b", Member, WEEK),
     Accepted(4, 0, "b", 5, true, Inserted(6))]
  }

  function AfterRegister(locking: bool): State {
    State(locking, Tables({2}, map["a" := 1], map[3 := Row(1, 2, Owner)], map[], {1, 2, 3}), map[], 0,
          [Registered("a", 1, 2, 3)], [0])
  }

  function AfterInvite(locking: bool): State {
    AfterRegister(locking).(
      db := AfterRegister(locking).db.(invites := map[4 := Invite(2, "b", Member, WEEK, None, None)],
                                       issued := {1, 2, 3, 4}),
      log := [Registered("a", 1, 2, 3), Created(1, Check(3, 1), 4, 2, "b", Member, WEEK)], times := [0, 0])
  }

  function PrologueDb(): Tables {
    Tables({2}, map["a" := 1, "b" := 5], map[3 := Row(1, 2, Owner), 6 := Row(5, 2, Member)],
           map[4 := Invite(2, "b", Member, WEEK, Some(0), None)], {1, 2, 3, 4, 5, 6})
  }

  function AfterPrologue(locking: bool): State { State(locking, PrologueDb(), map[], 0, Prologue(), [0, 0, 0]) }

  lemma RegisterIsServed(locking: bool)
    ensures Run(Init(locking), Serving(REGISTER)) == AfterRegister(locking)
  {
    var s := Init(locking);
    RegisterAlone(s, REGISTER);
    Served(s, REGISTER, Registered("a", 1, 2, 3));
  }

  lemma LowerIsSame()
    ensures Lower("b") == "b"
  {
    assert "b"[1..] == "";
  }

  lemma InviteIsServed(locking: bool)
    ensures Run(AfterRegister(locking), Serving(INVITE)) == AfterInvite(locking)
  {
    var s := AfterRegister(locking);
    assert OneMembershipEach(s.db);
    LookupIs(s.db, 3, 1, 2);
    LowerIsSame();
    CreateAlone(s, INVITE);
    Served(s, INVITE, Created(1, Check(3, 1), 4, 2, "b", Member, WEEK));
  }

  lemma AcceptIsServed(locking: bool)
    ensures Run(AfterInvite(locking), Serving(ACCEPT)) == AfterPrologue(locking)
  {
    var s := AfterInvite(locking);
    LowerIsSame();
    AcceptAlone(s, ACCEPT);
    Served(s, ACCEPT, Accepted(4, 0, "b", 5, true, Inserted(6)));
    assert Committed(s, Accepted(4, 0, "b", 5, true, Inserted(6))).db == PrologueDb();
  }

  function PrologueSchedule(): seq<Action> { Serving(REGISTER) + Serving(INVITE) + Serving(ACCEPT) }

  lemma PrologueIsReached(locking: bool)
    ensures Run(Init(locking), PrologueSchedule()) == AfterPrologue(locking)
  {
    RegisterIsServed(locking);
    InviteIsServed(locking);
    AcceptIsServed(locking);
    RunConcat(Init(locking), Serving(REGISTER), Serving(INVITE));
    RunConcat(Init(locking), Serving(REGISTER) + Serving(INVITE), Serving(ACCEPT));
  }

  /** Two requests that begin one after the other in a state with no transaction. */
  lemma TwoBegin(s: State, a: Request, b: Request)
    requires s.txns == map[] && Ids(a) !! s.db.issued && Ids(b) !! s.db.issued && Ids(a) !! Ids(b)
    ensures Run(s, [Begin(10, a), Begin(11, b)])
         == s.(txns := map[10 := Txn(a, s.now, Start), 11 := Txn(b, s.now, Start)])
  {
    RunSnoc(s, [], Begin(10, a));
    assert [] + [Begin(10, a)] == [Begin(10, a)] && [Begin(10, a)] + [Begin(11, b)] == [Begin(10, a), Begin(11, b)];
    RunSnoc(s, [Begin(10, a)], Begin(11, b));
    var s' := Next(s, Begin(10, a));
    assert s'.txns == map[10 := Txn(a, s.now, Start)];
  }

  // ----- Two owners demote each other -----

  function TwoOwners(): State {
    var log := Prologue() + [RoleChanged(1, 3, 2, 6, Member, Owner)];
    State(false, PrologueDb().(members := map[3 := Row(1, 2, Owner), 6 := Row(5, 2, Owner)]),
          map[10 := Txn(Patch(1, 2, 6, Member), 0, Start), 11 := Txn(Patch(5, 2, 3, Member), 0, Start)],
          0, log, [0, 0, 0, 0])
  }

  function MutualDemotion(): seq<Action> {
    Repeat(10, 6) + Repeat(11, 6) + [Advance(10)] + [Advance(11)]
  }

  const PROMOTE := Request.Patch(1, 2, 6, Owner)

  function TwoOwnersSchedule(): seq<Action> {
    PrologueSchedule() + Serving(PROMOTE) + [Begin(10, Patch(1, 2, 6, Member)), Begin(11, Patch(5, 2, 3, Member))]
  }

  lemma PromoteIsServed()
    ensures Run(AfterPrologue(false), Serving(PROMOTE)) == TwoOwners().(txns := map[])
  {
    var s := AfterPrologue(false);
    assert OneMembershipEach(s.db);
    ChangeAlone(s, PROMOTE, 3);
    var e := RoleChanged(1, 3, 2, 6, Member, Owner);
    Served(s, PROMOTE, e);
    assert s.db.members[6 := Row(5, 2, Owner)] == TwoOwners().db.members;
  }

  lemma TwoOwnersIsReached()
    ensures Run(Init(false), TwoOwnersSchedule()) == TwoOwners()
  {
    PrologueIsReached(false);
    PromoteIsServed();
    TwoBegin(TwoOwners().(txns := map[]), Patch(1, 2, 6, Member), Patch(5, 2, 3, Member));
    RunConcat(Init(false), PrologueSchedule(), Serving(PROMOTE));
    RunConcat(Init(false), PrologueSchedule() + Serving(PROMOTE),
              [Begin(10, Patch(1, 2, 6, Member)), Begin(11, Patch(5, 2, 3, Member))]);
  }

  function BothFlushed(): State {
    TwoOwners().(txns := map[
      10 := Txn(Patch(1, 2, 6, Member), 0, Flushed(3, Owner, Row(5, 2, Owner))),
      11 := Txn(Patch(5, 2, 3, Member), 0, Flushed(6, Owner, Row(1, 2, Owner)))])
  }

  lemma TwoOwnersCount()
    ensures Owners(TwoOwners().db, 2) == {3, 6} && OneMembershipEach(TwoOwners().db)
  {
  }

  lemma FirstReachesFlush()
    ensures Run(TwoOwners(), Repeat(10, 6)) == At(TwoOwners(), 10, 3, 6)
  {
    TwoOwnersCount();
    ChangeReachesFlush(TwoOwners(), 10, 3, Some(Member), 6);
  }

  lemma SecondReachesFlush()
    ensures Run(At(TwoOwners(), 10, 3, 6), Repeat(11, 6)) == BothFlushed()
  {
    TwoOwnersCount();
    var s := At(TwoOwners(), 10, 3, 6);
    ChangeReachesFlush(s, 11, 6, Some(Member), 6);
    assert At(s, 11, 6, 6).txns == BothFlushed().txns;
  }

  lemma BothCommit()
    ensures Owners(Next(Next(BothFlushed(), Advance(10)), Advance(11)).db, 2) == {}
  {
  }

  lemma MutualDemotionLeavesNone()
    ensures Owners(Run(TwoOwners(), MutualDemotion()).db, 2) == {}
  {
    var s := TwoOwners();
    FirstReachesFlush();
    SecondReachesFlush();
    BothCommit();
    RunConcat(s, Repeat(10, 6), Repeat(11, 6));
    RunSnoc(s, Repeat(10, 6) + Repeat(11, 6), Advance(10));
    RunSnoc(s, Repeat(10, 6) + Repeat(11, 6) + [Advance(10)], Advance(11));
  }

  /** With `locking` off, both requests count two owners before either has committed. */
  lemma WithoutTheLockAnOrgLosesEveryOwner()
    ensures |Owners(Run(Init(false), TwoOwnersSchedule()).db, 2)| == 2
    ensures 2 in Run(Init(false), TwoOwnersSchedule()).db.orgs
    ensures Owners(Run(Init(false), TwoOwnersSchedule() + MutualDemotion()).db, 2) == {}
  {
    TwoOwnersIsReached();
    TwoOwnersCount();
    MutualDemotionLeavesNone();
    RunConcat(Init(false), TwoOwnersSchedule(), MutualDemotion());
  }

  // ----- A member accepts a second invitation while being removed -----

  function Reinvited(): State {
    State(true, PrologueDb().(invites := PrologueDb().invites[7 := Invite(2, "b", Member, WEEK, None, None)],
                              issued := {1, 2, 3, 4, 5, 6, 7}),
          map[10 := Txn(Accept(7, "b", None, 8, 9), 0, Start), 11 := Txn(Remove(1, 2, 6), 0, Start)],
          0, Prologue() + [Created(1, Check(3, 3), 7, 2, "b", Member, WEEK)], [0, 0, 0, 0])
  }

  const INV := Invite(2, "b", Member, WEEK, None, None)

  function Accepting(pc: Pc): State {
    Reinvited().(txns := map[10 := Txn(Accept(7, "b", None, 8, 9), 0, pc), 11 := Txn(Remove(1, 2, 6), 0, Start)])
  }

  function ReadyToAccept(): State { Accepting(Ready(INV, 5, false, Existing(6, 4))) }

  const REINVITE := Request.Create(1, 2, 7, "b", Member)

  function ReinvitedSchedule(): seq<Action> {
    PrologueSchedule() + Serving(REINVITE) + [Begin(10, Accept(7, "b", None, 8, 9)), Begin(11, Remove(1, 2, 6))]
  }

  lemma ReinviteIsServed()
    ensures Run(AfterPrologue(true), Serving(REINVITE)) == Reinvited().(txns := map[])
  {
    var s := AfterPrologue(true);
    assert OneMembershipEach(s.db);
    LookupIs(s.db, 3, 1, 2);
    LowerIsSame();
    CreateAlone(s, REINVITE);
    Served(s, REINVITE, Created(1, Check(3, 3), 7, 2, "b", Member, WEEK));
  }

  lemma ReinvitedIsReached()
    ensures Run(Init(true), ReinvitedSchedule()) == Reinvited()
  {
    PrologueIsReached(true);
    ReinviteIsServed();
    TwoBegin(Reinvited().(txns := map[]), Accept(7, "b", None, 8, 9), Remove(1, 2, 6));
    RunConcat(Init(true), PrologueSchedule(), Serving(REINVITE));
    RunConcat(Init(true), PrologueSchedule() + Serving(REINVITE),
              [Begin(10, Accept(7, "b", None, 8, 9)), Begin(11, Remove(1, 2, 6))]);
  }

  lemma AcceptStatement(pc: Pc, next: Pc)
    requires DecideAccept(Accepting(pc), 10, Accepting(pc).txns[10]) == Goto(next)
    ensures Next(Accepting(pc), Advance(10)) == Accepting(next)
  {
    assert Accepting(pc).txns[10 := Accepting(next).txns[10]] == Accepting(next).txns;
  }

  lemma AcceptanceBecomesReady()
    ensures Run(Reinvited(), Repeat(10, 3)) == ReadyToAccept()
  {
    var s := Reinvited();
    AcceptStatement(Start, Consumed(INV));
    AcceptStatement(Consumed(INV), HasUser(INV, 5, false));
    assert OneMembershipEach(s.db);
    LookupIs(s.db, 6, 5, 2);
    AcceptStatement(HasUser(INV, 5, false), Ready(INV, 5, false, Existing(6, 4)));
    RunSnoc(s, Repeat(10, 0), Advance(10));
    RunSnoc(s, Repeat(10, 1), Advance(10));
    RunSnoc(s, Repeat(10, 2), Advance(10));
  }

  lemma RemovalReachesItsFlush()
    ensures Run(ReadyToAccept(), Repeat(11, 6)) == At(ReadyToAccept(), 11, 3, 6)
  {
    var r := ReadyToAccept();
    assert OneMembershipEach(r.db);
    ChangeReachesFlush(r, 11, 3, None, 6);
  }

  /** The acceptance once the removal has committed. */
  function StillReady(): State {
    ReadyToAccept().(
      db := ReadyToAccept().db.(members := map[3 := Row(1, 2, Owner)]),
      txns := map[10 := Txn(Accept(7, "b", None, 8, 9), 0, Ready(INV, 5, false, Existing(6, 4)))],
      log := Reinvited().log + [Removed(1, 3, 2, 6, Member)], times := Reinvited().times + [0])
  }

  lemma RemovalCommits()
    ensures Next(At(ReadyToAccept(), 11, 3, 6), Advance(11)) == StillReady()
  {
  }

  lemma BothFinish()
    ensures var db := Next(Next(At(ReadyToAccept(), 11, 3, 6), Advance(11)), Advance(10)).db;
            && 7 in db.invites && db.invites[7].accepted == Some(0)
            && "b" in db.users && NoMember(db, db.users["b"], 2)
  {
    RemovalCommits();
    var s := StillReady();
    assert Decide(s, 10) == DecideAccept(s, 10, s.txns[10]);
  }

  function RemovedMeanwhile(): seq<Action> { Repeat(10, 3) + Repeat(11, 6) + [Advance(11)] + [Advance(10)] }

  lemma RemovalMeanwhile()
    ensures var db := Run(Reinvited(), RemovedMeanwhile()).db;
            && 7 in db.invites && db.invites[7].accepted == Some(0)
            && "b" in db.users && NoMember(db, db.users["b"], 2)
  {
    var s := Reinvited();
    AcceptanceBecomesReady();
    RemovalReachesItsFlush();
    BothFinish();
    RunConcat(s, Repeat(10, 3), Repeat(11, 6));
    RunSnoc(s, Repeat(10, 3) + Repeat(11, 6), Advance(11));
    RunSnoc(s, Repeat(10, 3) + Repeat(11, 6) + [Advance(11)], Advance(10));
  }

  /** The acceptance commits and the user is left without a membership. */
  lemma AcceptanceCanLeaveNoMembership()
    ensures var db := Run(Init(true), ReinvitedSchedule() + RemovedMeanwhile()).db;
            && 7 in db.invites && db.invites[7].accepted == Some(0)
            && "b" in db.users && NoMember(db, db.users["b"], 2)
  {
    ReinvitedIsReached();
    RemovalMeanwhile();
    RunConcat(Init(true), ReinvitedSchedule(), RemovedMeanwhile());
  }

  function WaitsAWeek(): seq<Action> { Repeat(10, 3) + [Tick(WEEK)] + [Advance(10)] }

  lemma WeekMeanwhile()
    ensures var s := Run(Reinvited(), WaitsAWeek());
            && 7 in s.db.invites && s.db.invites[7].accepted.Some?
            && |s.times| == 5 && s.times[4] >= s.db.invites[7].expires
  {
    var s, r := Reinvited(), ReadyToAccept();
    AcceptanceBecomesReady();
    RunSnoc(s, Repeat(10, 3), Tick(WEEK));
    RunSnoc(s, Repeat(10, 3) + [Tick(WEEK)], Advance(10));
    var s1 := Next(r, Tick(WEEK));
    assert Decide(s1, 10) == Commit(Accepted(7, 0, "b", 5, false, Existing(6, 4)));
  }

  /** The acceptance commits a week after it was decided, when the invitation has expired. */
  lemma AcceptanceCanCommitAfterExpiry()
    ensures var s := Run(Init(true), ReinvitedSchedule() + WaitsAWeek());
            && 7 in s.db.invites && s.db.invites[7].accepted.Some?
            && |s.times| == 5 && s.times[4] >= s.db.invites[7].expires
  {
    ReinvitedIsReached();
    WeekMeanwhile();
    RunConcat(Init(true), ReinvitedSchedule(), WaitsAWeek());
  }

  // ----- An administrator is removed while inviting -----

  const ADMIT := Request.Patch(1, 2, 6, Admin)
  const ADMIN_INVITES := Request.Create(5, 2, 7, "b", Member)

  function AdminInvites(pc: Pc): State {
    State(true, PrologueDb().(members := map[3 := Row(1, 2, Owner), 6 := Row(5, 2, Admin)]),
          map[10 := Txn(ADMIN_INVITES, 0, pc), 11 := Txn(Remove(1, 2, 6), 0, Start)],
          0, Prologue() + [RoleChanged(1, 3, 2, 6, Member, Admin)], [0, 0, 0, 0])
  }

  function AdminSchedule(): seq<Action> {
    PrologueSchedule() + Serving(ADMIT) + [Begin(10, ADMIN_INVITES), Begin(11, Remove(1, 2, 6))]
  }

  lemma AdmitIsServed()
    ensures Run(AfterPrologue(true), Serving(ADMIT)) == AdminInvites(Start).(txns := map[])
  {
    var s := AfterPrologue(true);
    assert OneMembershipEach(s.db);
    ChangeAlone(s, ADMIT, 3);
    Served(s, ADMIT, RoleChanged(1, 3, 2, 6, Member, Admin));
    assert s.db.members[6 := Row(5, 2, Admin)] == AdminInvites(Start).db.members;
  }

  lemma AdminIsReached()
    ensures Run(Init(true), AdminSchedule()) == AdminInvites(Start)
  {
    PrologueIsReached(true);
    AdmitIsServed();
    TwoBegin(AdminInvites(Start).(txns := map[]), ADMIN_INVITES, Remove(1, 2, 6));
    RunConcat(Init(true), PrologueSchedule(), Serving(ADMIT));
    RunConcat(Init(true), PrologueSchedule() + Serving(ADMIT), [Begin(10, ADMIN_INVITES), Begin(11, Remove(1, 2, 6))]);
  }

  const CHECKED := Pc.Prechecked(Check(6, 4))

  lemma AdminIsChecked()
    ensures Next(AdminInvites(Start), Advance(10)) == AdminInvites(CHECKED)
  {
    var s := AdminInvites(Start);
    assert OneMembershipEach(s.db);
    LookupIs(s.db, 6, 5, 2);
    assert Decide(s, 10) == Goto(CHECKED);
    assert s.txns[10 := AdminInvites(CHECKED).txns[10]] == AdminInvites(CHECKED).txns;
  }

  lemma AdminRemovalReachesItsFlush()
    ensures Run(AdminInvites(CHECKED), Repeat(11, 6)) == At(AdminInvites(CHECKED), 11, 3, 6)
  {
    var s := AdminInvites(CHECKED);
    assert OneMembershipEach(s.db);
    ChangeReachesFlush(s, 11, 3, None, 6);
  }

  /** The inviting transaction once the removal of its administrator has committed. */
  function AdminIsGone(): State {
    AdminInvites(CHECKED).(
      db := AdminInvites(CHECKED).db.(members := map[3 := Row(1, 2, Owner)]),
      txns := map[10 := Txn(ADMIN_INVITES, 0, CHECKED)],
      log := AdminInvites(CHECKED).log + [Removed(1, 3, 2, 6, Admin)], times := [0, 0, 0, 0, 0])
  }

  lemma AdminRemovalCommits()
    ensures Next(At(AdminInvites(CHECKED), 11, 3, 6), Advance(11)) == AdminIsGone()
  {
  }

  function GoneSchedule(): seq<Action> { AdminSchedule() + [Advance(10)] + Repeat(11, 6) + [Advance(11)] }

  lemma GoneIsReached()
    ensures Run(Init(true), GoneSchedule()) == AdminIsGone()
  {
    AdminIsReached();
    AdminIsChecked();
    AdminRemovalReachesItsFlush();
    AdminRemovalCommits();
    RunSnoc(Init(true), AdminSchedule(), Advance(10));
    RunConcat(Init(true), AdminSchedule() + [Advance(10)], Repeat(11, 6));
    RunSnoc(Init(true), AdminSchedule() + [Advance(10)] + Repeat(11, 6), Advance(11));
  }

  lemma GoneInvites()
    ensures var s, v := AdminIsGone(), Next(AdminIsGone(), Advance(10));
      && v.log == s.log + [Created(5, Check(6, 4), 7, 2, Lower("b"), Member, WEEK)]
      && !HasAuthority(s.db, 5, 2)
  {
    assert Decide(AdminIsGone(), 10) == Commit(Created(5, Check(6, 4), 7, 2, Lower("b"), Member, WEEK));
  }

  /** The invitation commits although its author has been removed from the organisation. */
  lemma InvitationCanOutliveAuthority()
    ensures var log := Run(Init(true), GoneSchedule() + [Advance(10)]).log;
      && |log| == 6 && log[5].Created? && log[5].actor == 5 && log[5].org == 2
      && !HasAuthority(Replay(log[..5]), 5, 2)
  {
    GoneIsReached();
    GoneInvites();
    RunSnoc(Init(true), GoneSchedule(), Advance(10));
    RunKeepsInv(GoneSchedule());
    assert Next(AdminIsGone(), Advance(10)).log[..5] == AdminIsGone().log;
  }
}

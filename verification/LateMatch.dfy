/**
 * The one way a match is orphaned, run step by step: the worker is so quick
 * that the saver is done with the result before AddMatch commits.
 */
module LateMatch {
  import opened Base
  import opened Tables
  import opened Workers
  import Pool
  import M = Manager
  import R = Registry
  import Q = QueueApi
  import opened Platform
  import opened PlatformTheorems

  const ROSTER: map<Login, Token> := map["a" := 1, "b" := 2]
  const SERVER := ServerInfo("host", "port")
  const RESULT := Result(true, 1, "{}")

  /** One worker, rooms of two. */
  function Two(limits: Limits): Config {
    Config(M.Config(limits, 1), 1, 2)
  }

  function Acts(): seq<Act> {
    [SetupRun, NewUser("a"), NewUser("b"),
     Api(Q.Enqueue(0, "a", 10)), Api(Q.Enqueue(0, "b", 10)),
     Manager(M.WaitLock), WaitReturn, Gather({"a", "b"}), TokensRun(ROSTER), NextId, AssignMatch(SERVER),
     Manager(M.Deliver(RESULT)), Manager(M.Ack), Manager(M.Push), Manager(M.Receive),
     RemoveRun(true), SaveRun(true), AddMatch, Manager(M.Release)]
  }

  // ----- The rows before each step -----

  const QUEUED := UserRow(None, None, Some(10), 1)

  function Users(n: nat): map<Login, UserRow> {
    if n <= 1 then map[]
    else if n == 2 then map["a" := NEW_USER]
    else if n == 3 then map["a" := NEW_USER, "b" := NEW_USER]
    else if n == 4 then map["a" := QUEUED, "b" := NEW_USER]
    else if n <= 8 then map["a" := QUEUED, "b" := QUEUED]
    else if n <= 17 then map["a" := QUEUED.(token := Some(1)), "b" := QUEUED.(token := Some(2))]
    else map["a" := UserRow(Some(1), Some(1), None, 1), "b" := UserRow(Some(1), Some(2), None, 1)]
  }

  function Rows(n: nat): Tables {
    Tables(Users(n),
           if n <= 17 then map[] else map[1 := MatchRow(SERVER, true, false, None)],
           if n <= 17 then {} else {("a", 1), ("b", 1)},
           if n <= 9 then 1 else 2)
  }

  // ----- The manager before each step -----

  function Table(n: nat): Pool.Pool {
    if n <= 10 then Pool.Pool([FRESH], [], multiset{}, multiset{}, multiset{}, multiset{})
    else if n <= 18 then
      Pool.Pool([Rec(Occupied, 1, None, 1, 0)], [], multiset{1}, multiset{1}, multiset{}, multiset{})
    else Pool.Pool([Rec(Free, 2, None, 0, 0)], [], multiset{1}, multiset{1}, multiset{1}, multiset{})
  }

  function Mgr(n: nat): M.Mgr {
    M.Mgr(
      Table(n),
      if n == 6 then M.ByWaiter else M.Nobody,
      if n == 6 then M.Locked else M.Outside,
      n == 6, 0, false,
      if n == 14 then [RESULT] else [],
      M.Idle,
      if n <= 11 then M.Listening else if n == 12 then M.Got(RESULT) else if n == 13 then M.Acked(RESULT)
      else if n <= 18 then M.Pushed(RESULT) else M.Listening,
      if n == 15 then M.Removing(RESULT) else if n == 16 then M.Saving(RESULT) else M.Resting,
      if n <= 13 then [] else [M.Entry(M.FromInbox, RESULT)],
      if n <= 14 then [] else [RESULT],
      if n <= 16 then [] else [RESULT],
      if n <= 12 then [] else [RESULT])
  }

  function Maker(n: nat): Matchmaker {
    if n == 0 then Starting
    else if n <= 6 then Waiting
    else if n == 7 then Gathering
    else if n == 8 then Tokening({"a", "b"})
    else if n == 9 then Numbering(ROSTER)
    else if n == 10 then Assigning(ROSTER, 1)
    else if n <= 17 then Adding(ROSTER, 1, SERVER)
    else Waiting
  }

  function ApiAt(n: nat): Q.Api {
    NO_API.(
      instances := [Q.Instance(R.EMPTY_REGISTRY, true)],
      arriving := if n <= 3 then {} else if n == 4 then {Q.Arrival(0, Key("a", 1))}
                  else {Q.Arrival(0, Key("a", 1)), Q.Arrival(0, Key("b", 1))},
      touched := if n <= 17 then {} else {Key("a", 1), Key("b", 1)})
  }

  function State(n: nat): Platform {
    Platform(0, Rows(n), Mgr(n), Maker(n), ApiAt(n),
             if n <= 10 then map[] else map[1 := ROSTER],
             if n <= 10 then map[] else map[1 := SERVER],
             if n <= 17 then {} else {1},
             if n <= 17 then {} else {1},
             if n <= 17 then {} else {1},
             {})
  }

  // ----- The steps -----

  ghost predicate Follows(limits: Limits, n: nat)
    requires n < 19
  {
    Enabled(Two(limits), State(n), Acts()[n]) && Next(Two(limits), State(n), Acts()[n]) == State(n + 1)
  }

  lemma Begins(limits: Limits)
    ensures Init(Two(limits), 1) == State(0)
  {
    assert Pool.Start(1, multiset{}).workers == [FRESH];
    assert Init(Two(limits), 1).api.instances == ApiAt(0).instances;
  }

  lemma Users0(limits: Limits)
    ensures Follows(limits, 0)
  {
    assert Setup(Rows(0)).users == map[] && Setup(Rows(0)).matches == map[];
    assert NewestKeys(Rows(0), {}) == {};
  }

  lemma AddedUsers()
    ensures AddUser(Rows(1), "a") == Rows(2) && AddUser(Rows(2), "b") == Rows(3)
  {
    assert "b" != "a";
    assert Users(1) == map[] && Users(2) == map["a" := NEW_USER];
    assert Users(3) == Users(2)["b" := NEW_USER];
  }

  /** A step that only adds a user. */
  lemma UserFollows(limits: Limits, n: nat, l: Login)
    requires n < 19 && Acts()[n] == NewUser(l) && State(n + 1) == State(n).(db := AddUser(Rows(n), l))
    ensures Follows(limits, n)
  {
  }

  lemma NewUser1(limits: Limits)
    ensures Follows(limits, 1)
  {
    AddedUsers();
    UserFollows(limits, 1, "a");
  }

  lemma NewUser2(limits: Limits)
    ensures Follows(limits, 2)
  {
    AddedUsers();
    UserFollows(limits, 2, "b");
  }

  lemma Enqueues(n: nat, l: Login)
    requires (n == 3 && l == "a") || (n == 4 && l == "b")
    ensures Q.Next(ApiAt(n), Rows(n), Q.Enqueue(0, l, 10)) == ApiAt(n + 1)
    ensures Q.NextTables(Rows(n), Q.Enqueue(0, l, 10)) == Rows(n + 1)
  {
    assert QueueId(Rows(n), l) == Some(1);
    assert SetQueue(Rows(n), l, 10).users == Users(n + 1);
    assert ApiAt(n).arriving + {Q.Arrival(0, Key(l, 1))} == ApiAt(n + 1).arriving;
  }

  /** A step of the API alone. */
  lemma ApiFollows(limits: Limits, n: nat, q: Q.Act)
    requires n == 3 || n == 4
    requires Acts()[n] == Api(q) && Q.Enabled(ApiAt(n), q)
    requires Q.Next(ApiAt(n), Rows(n), q) == ApiAt(n + 1) && Q.NextTables(Rows(n), q) == Rows(n + 1)
    ensures Follows(limits, n)
  {
    assert Mgr(n + 1) == Mgr(n) && Maker(n + 1) == Maker(n);
  }

  lemma Users1(limits: Limits)
    ensures Follows(limits, 3)
  {
    Enqueues(3, "a");
    ApiFollows(limits, 3, Q.Enqueue(0, "a", 10));
  }

  lemma Users2(limits: Limits)
    ensures Follows(limits, 4)
  {
    Enqueues(4, "b");
    ApiFollows(limits, 4, Q.Enqueue(0, "b", 10));
  }

  lemma Waits(limits: Limits)
    ensures Follows(limits, 5)
  {
  }

  lemma WaitEnds(limits: Limits)
    ensures Follows(limits, 6)
  {
    assert Mgr(6).pool.workers[0].state == Free;
  }

  lemma Gathers(limits: Limits)
    ensures Follows(limits, 7)
  {
    assert MayGather(Rows(7), 0, 2, {"a", "b"});
  }

  lemma Tokens(limits: Limits)
    ensures Follows(limits, 8)
  {
    assert ROSTER.Keys == {"a", "b"};
    assert SetTokens(Rows(8), ROSTER).users == Users(9);
  }

  lemma Numbers(limits: Limits)
    ensures Follows(limits, 9)
  {
  }

  lemma AssignsMgr(limits: Limits)
    ensures M.Enabled(Two(limits).manager, Mgr(10), M.AssignOk(1))
    ensures M.Next(Two(limits).manager, Mgr(10), M.AssignOk(1)) == Mgr(11)
  {
    assert Mgr(10).pool.workers[0].state == Free;
    assert Pool.FreeWorker(Mgr(10).pool.workers) == Some(0);
    assert multiset{} + multiset{1} == multiset{1};
  }

  lemma Assigns(limits: Limits)
    ensures Follows(limits, 10)
  {
    AssignsMgr(limits);
  }

  /** A step of the manager alone. */
  lemma ManagerFollows(limits: Limits, n: nat, a: M.Act)
    requires n < 19 && Acts()[n] == Manager(a) && a != M.WaitLock
    requires M.Enabled(Two(limits).manager, Mgr(n), a) && M.Proper(Mgr(n), a) && IsInternal(Mgr(n), a)
    requires State(n + 1) == State(n).(mgr := M.Next(Two(limits).manager, Mgr(n), a))
    ensures Follows(limits, n)
  {
  }

  lemma Delivers(limits: Limits)
    ensures Follows(limits, 11)
  {
    ManagerFollows(limits, 11, M.Deliver(RESULT));
  }

  lemma Acks(limits: Limits)
    ensures Follows(limits, 12)
  {
    ManagerFollows(limits, 12, M.Ack);
  }

  lemma Pushes(limits: Limits)
    ensures Follows(limits, 13)
  {
    ManagerFollows(limits, 13, M.Push);
  }

  lemma Receives(limits: Limits)
    ensures Follows(limits, 14)
  {
    assert [RESULT][1..] == [];
    ManagerFollows(limits, 14, M.Receive);
  }

  lemma Removes(limits: Limits)
    ensures Follows(limits, 15)
  {
    assert RemoveStatus(Rows(15), 1).users == Users(16);
    assert M.Next(Two(limits).manager, Mgr(15), M.Removed) == Mgr(16);
  }

  lemma Saves(limits: Limits)
    ensures Follows(limits, 16)
  {
    assert M.Next(Two(limits).manager, Mgr(16), M.Saved) == Mgr(17);
  }

  lemma NothingDue()
    ensures !SaveDue(Mgr(17), 1) && Begun(Mgr(17), 1)
    ensures !RemoveDue(Mgr(19), 1) && !SaveDue(Mgr(19), 1)
  {
    assert !Owed(Mgr(17), 1);
    assert Mgr(17).received[0].matchId == 1;
    assert !Owed(Mgr(19), 1);
  }

  lemma AddedRows()
    ensures ROSTER.Keys == {"a", "b"} && MatchInsertable(Rows(17), ROSTER.Keys, 1)
    ensures InsertMatch(Rows(17), ROSTER.Keys, SERVER, 1) == Rows(18)
    ensures NewestKeys(Rows(17), ROSTER.Keys) == {Key("a", 1), Key("b", 1)}
  {
    assert ROSTER.Keys == {"a", "b"};
    var u := InsertMatch(Rows(17), ROSTER.Keys, SERVER, 1);
    assert u.users == Users(18);
    assert u.history == {("a", 1), ("b", 1)};
    assert NewestKeys(Rows(17), ROSTER.Keys) == {Key("a", 1), Key("b", 1)};
  }

  lemma Adds(limits: Limits)
    ensures Follows(limits, 17)
  {
    NothingDue();
    AddedRows();
  }

  lemma Releases(limits: Limits)
    ensures Follows(limits, 18)
  {
    assert Mgr(18).pool.workers[0].matchId == 1;
    assert Pool.Holder(Mgr(18).pool.workers, 1) == Some(0);
    assert multiset{} + multiset{1} == multiset{1};
    assert M.Next(Two(limits).manager, Mgr(18), M.Release) == Mgr(19);
  }

  lemma EachFollows(limits: Limits, n: nat)
    requires n < 19
    ensures Follows(limits, n)
  {
    if n <= 2 {
      Users0(limits);
      NewUser1(limits);
      NewUser2(limits);
    } else if n <= 4 {
      Users1(limits);
      Users2(limits);
    } else if n <= 6 {
      Waits(limits);
      WaitEnds(limits);
    } else if n == 7 {
      Gathers(limits);
    } else if n <= 9 {
      Tokens(limits);
      Numbers(limits);
    } else if n == 10 {
      Assigns(limits);
    } else if n <= 12 {
      Delivers(limits);
      Acks(limits);
    } else {
      LaterFollows(limits, n);
    }
  }

  lemma LaterFollows(limits: Limits, n: nat)
    requires 13 <= n < 19
    ensures Follows(limits, n)
  {
    if n == 13 {
      Pushes(limits);
    } else if n == 14 {
      Receives(limits);
    } else if n == 15 {
      Removes(limits);
    } else if n == 16 {
      Saves(limits);
    } else if n == 17 {
      Adds(limits);
    } else {
      Releases(limits);
    }
  }

  lemma EndsOrphaned()
    ensures var p := State(19);
            && p.failed == {} && 1 in p.db.matches && p.db.matches[1].active
            && !Covered(p.mgr, 1) && !SaveDue(p.mgr, 1)
            && "a" in p.db.users && p.db.users["a"].matchId == Some(1)
  {
    NothingDue();
  }

  /**
   * Without the ordering hypothesis matches can be orphaned: here is a run in
   * which no statement fails and which leaves a match active that no worker
   * runs and no result is coming for, and its players in it.
   */
  lemma LateMatchIsOrphaned(limits: Limits) returns (run: seq<Platform>)
    ensures IsRun(Two(limits), 1, run, Acts())
    ensures var p := run[|Acts()|];
            && p.failed == {} && 1 in p.db.matches && p.db.matches[1].active
            && !Covered(p.mgr, 1) && !SaveDue(p.mgr, 1)
            && "a" in p.db.users && p.db.users["a"].matchId == Some(1)
  {
    run := seq(20, n requires 0 <= n < 20 => State(n));
    Begins(limits);
    forall n | 0 <= n < 19
      ensures Enabled(Two(limits), run[n], Acts()[n]) && run[n + 1] == Next(Two(limits), run[n], Acts()[n])
    {
      EachFollows(limits, n);
    }
    EndsOrphaned();
  }
}

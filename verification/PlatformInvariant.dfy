/** The invariant of the whole platform, and that every step keeps it. */
module PlatformInvariant {
  import opened Base
  import opened Tables
  import Pool
  import M = Manager
  import R = Registry
  import Q = QueueApi
  import opened Platform
  import opened PlatformRows
  import opened PlatformOrphans

  ghost predicate Inv(c: Config, p: Platform) {
    && M.Inv(c.manager, p.mgr)
    && IdsInv(p)
    && RowsInv(c, p)
    && Q.Inv(p.api, p.db)
    && OrphansInv(p) && ListsInv(p) && AddingInv(p)
  }

  // ----- The manager's part -----

  /** The manager step a platform step makes, if any. */
  function ManagerAct(p: Platform, a: Act): Option<M.Act> {
    match a
    case Manager(m) => Some(m)
    case WaitReturn => Some(M.WaitCheck)
    case AssignMatch(_) => if p.mm.Assigning? then Some(M.AssignOk(p.mm.id)) else None
    case AssignLost => if p.mm.Assigning? then Some(M.AssignLost(p.mm.id)) else None
    case RemoveRun(_) => Some(M.Removed)
    case SaveRun(_) => Some(M.Saved)
    case _ => None
  }

  lemma ManagerAfter(c: Config, p: Platform, a: Act)
    requires Enabled(c, p, a) && a != Reboot
    ensures match ManagerAct(p, a)
            case None => Next(c, p, a).mgr == p.mgr
            case Some(m) => M.Enabled(c.manager, p.mgr, m) && Next(c, p, a).mgr == M.Next(c.manager, p.mgr, m)
  {
  }

  lemma ManagerPart(c: Config, p: Platform, a: Act)
    requires M.Inv(c.manager, p.mgr) && IdsInv(p) && Enabled(c, p, a)
    ensures M.Inv(c.manager, Next(c, p, a).mgr)
  {
    if a == Reboot {
      M.StartInv(c.manager, c.workerCount, p.mgr.pool.offered);
    } else {
      ManagerAfter(c, p, a);
      if ManagerAct(p, a).Some? {
        M.StepInv(c.manager, p.mgr, ManagerAct(p, a).value);
      }
    }
  }

  // ----- The API's part -----

  /** The rows as the API sees them: who exists, the ids given out, and who is still queued. */
  predicate SameForApi(t: Tables, u: Tables) {
    forall l :: l in t.users ==>
      && l in u.users && u.users[l].lastWs == t.users[l].lastWs
      && (t.users[l].matchId.None? && t.users[l].queuedUntil.Some? ==>
            u.users[l].matchId.None? && u.users[l].queuedUntil.Some?)
  }

  lemma SameForApiKept(a: Q.Api, t: Tables, u: Tables)
    requires Q.Inv(a, t) && SameForApi(t, u)
    ensures Q.Inv(a, u)
  {
    forall k | k in a.touched ensures k.login in u.users && k.ws <= u.users[k.login].lastWs {
    }
    Q.RowsInv(a, a, t, u);
  }

  lemma SmallSteps(t: Tables, roster: map<Login, Token>, id: int, res: Result, l: Login)
    ensures SameForApi(t, SetTokens(t, roster)) && SameForApi(t, TakeId(t))
    ensures SameForApi(t, RemoveStatus(t, id)) && SameForApi(t, SaveResults(t, res))
    ensures SameForApi(t, AddUser(t, l)) && SameForApi(t, t)
  {
  }

  /** AddMatch and SetupMatchmaking take users off the queue, and their newest websockets are logged as touched. */
  lemma TouchedKept(a: Q.Api, t: Tables, u: Tables, logins: set<Login>)
    requires Q.Inv(a, t) && u.users.Keys == t.users.Keys
    requires forall l :: l in t.users ==> u.users[l].lastWs == t.users[l].lastWs
    requires forall l :: l in t.users && l !in logins ==> u.users[l] == t.users[l]
    ensures Q.Inv(a.(touched := a.touched + NewestKeys(t, logins)), u)
  {
    var b := a.(touched := a.touched + NewestKeys(t, logins));
    forall k | k in b.touched ensures k.login in u.users && k.ws <= u.users[k.login].lastWs {
    }
    forall k | Q.Alive(a, k) && Q.Known(t, k) && t.users[k.login].lastWs == k.ws && k !in b.touched
               && Q.StillQueued(t, k)
      ensures Q.StillQueued(u, k)
    {
      assert k.login in logins ==> k in NewestKeys(t, logins);
    }
    Q.RowsInv(a, b, t, u);
  }

  /** Steps of the server manager that take nobody off the queue. */
  predicate SparesQueue(a: Act) {
    !a.Api? && !a.SetupRun? && !a.AddMatch?
  }

  lemma ApiUntouched(c: Config, p: Platform, a: Act)
    requires Enabled(c, p, a) && SparesQueue(a)
    ensures Next(c, p, a).api == p.api
  {
  }

  lemma TokensFrame(c: Config, p: Platform, a: Act)
    requires Enabled(c, p, a) && (a.TokensRun? || a.TokensFailed?)
    ensures SameForApi(p.db, Next(c, p, a).db)
  {
    SmallSteps(p.db, a.roster, 0, Result(false, 0, ""), "");
  }

  lemma RemoveFrame(c: Config, p: Platform, applied: bool)
    requires Enabled(c, p, RemoveRun(applied))
    ensures SameForApi(p.db, Next(c, p, RemoveRun(applied)).db)
  {
    SmallSteps(p.db, map[], p.mgr.saver.res.matchId, p.mgr.saver.res, "");
  }

  lemma SaveFrame(c: Config, p: Platform, applied: bool)
    requires Enabled(c, p, SaveRun(applied))
    ensures SameForApi(p.db, Next(c, p, SaveRun(applied)).db)
  {
    SmallSteps(p.db, map[], p.mgr.saver.res.matchId, p.mgr.saver.res, "");
  }

  lemma ApiFrame(c: Config, p: Platform, a: Act)
    requires Enabled(c, p, a) && SparesQueue(a)
    ensures SameForApi(p.db, Next(c, p, a).db)
  {
    if a.TokensRun? || a.TokensFailed? {
      TokensFrame(c, p, a);
    } else if a.RemoveRun? {
      RemoveFrame(c, p, a.applied);
    } else if a.SaveRun? {
      SaveFrame(c, p, a.applied);
    } else {
      SmallSteps(p.db, map[], 0, Result(false, 0, ""), if a.NewUser? then a.login else "");
    }
  }

  lemma ApiPart(c: Config, p: Platform, a: Act)
    requires Q.Inv(p.api, p.db) && Enabled(c, p, a)
    ensures Q.Inv(Next(c, p, a).api, Next(c, p, a).db)
  {
    var q := Next(c, p, a);
    if a.Api? {
      Q.StepInv(p.api, p.db, a.api);
    } else if a.SetupRun? {
      TouchedKept(p.api, p.db, q.db, p.db.users.Keys);
    } else if a.AddMatch? {
      TouchedKept(p.api, p.db, q.db, p.mm.roster.Keys);
    } else {
      ApiUntouched(c, p, a);
      ApiFrame(c, p, a);
      SameForApiKept(p.api, p.db, q.db);
    }
  }

  // ----- The logs of configs and addresses -----

  /** Logs of match ids only grow. */
  predicate Grown(
    configs: map<int, map<Login, Token>>, servers: map<int, ServerInfo>,
    configs': map<int, map<Login, Token>>, servers': map<int, ServerInfo>)
  {
    && (forall id :: id in configs ==> id in configs' && configs'[id] == configs[id])
    && (forall id :: id in servers ==> id in servers' && servers'[id] == servers[id])
  }

  lemma LogsKept(c: Config, p: Platform, a: Act)
    requires Enabled(c, p, a) && !a.AssignMatch? && !a.AssignLost?
    ensures Next(c, p, a).configs == p.configs && Next(c, p, a).servers == p.servers
  {
  }

  lemma LogsGrow(c: Config, p: Platform, a: Act)
    requires IdsInv(p) && Enabled(c, p, a)
    ensures Grown(p.configs, p.servers, Next(c, p, a).configs, Next(c, p, a).servers)
  {
    if !a.AssignMatch? && !a.AssignLost? {
      LogsKept(c, p, a);
    }
  }

  // ----- Orphans -----

  lemma IdsAreGood(c: Config, p: Platform)
    requires Pool.Books(p.mgr.pool) && IdsInv(p) && RowsInv(c, p)
    ensures GoodIds(p)
  {
  }

  /** Steps that leave the manager alone and put nobody into a match. */
  predicate IsQuiet(a: Act) {
    || a.Tick? || a.Reboot? || a.Gather? || a.GatherFailed? || a.TokensRun? || a.TokensFailed? || a.NextId?
    || a.NextIdFailed? || a.AssignFailed? || a.AddFailed? || a.NewUser? || a.Api?
  }

  /** What the quiet steps do to the rows. */
  function QuietTables(p: Platform, a: Act): Tables {
    match a
    case TokensRun(roster) => SetTokens(p.db, roster)
    case TokensFailed(roster, true) => SetTokens(p.db, roster)
    case NextId => TakeId(p.db)
    case NextIdFailed(true) => TakeId(p.db)
    case NewUser(l) => AddUser(p.db, l)
    case Api(q) => Q.NextTables(p.db, q)
    case _ => p.db
  }

  lemma QuietRows(p: Platform, a: Act)
    ensures NothingNew(p.db, QuietTables(p, a)) && NothingLost(p.db, QuietTables(p, a))
  {
  }

  lemma QuietFrame(c: Config, p: Platform, a: Act)
    requires Enabled(c, p, a) && IsQuiet(a) && a != Reboot
    ensures var q := Next(c, p, a);
            && q.db == QuietTables(p, a)
            && q.mgr == p.mgr && q.configs == p.configs
            && (q.mm != Starting ==> p.mm != Starting) && (q.mm.Adding? ==> q.mm == p.mm)
            && q.premature == p.premature && q.stranded == p.stranded && q.stuck == p.stuck && q.failed == p.failed
  {
  }

  lemma QuietPart(c: Config, p: Platform, a: Act)
    requires OrphansInv(p) && ListsInv(p) && AddingInv(p) && Enabled(c, p, a) && IsQuiet(a)
    ensures var q := Next(c, p, a); OrphansInv(q) && ListsInv(q) && AddingInv(q)
  {
    if a != Reboot {
      QuietFrame(c, p, a);
      QuietRows(p, a);
      QuietOrphans(p, Next(c, p, a));
    }
  }

  lemma ManagerFrame(c: Config, p: Platform, a: Act)
    requires Enabled(c, p, a) && (a.Manager? || a.WaitReturn? || a.AssignMatch? || a.AssignLost?)
    ensures var q := Next(c, p, a);
            && q.db == p.db && (q.mm != Starting ==> p.mm != Starting)
            && q.premature == p.premature && q.stranded == p.stranded && q.stuck == p.stuck && q.failed == p.failed
            && (q.mm == p.mm || !q.mm.Adding? || a.AssignMatch?)
            && ManagerAct(p, a).Some? && ManagerAct(p, a).value != M.Removed && ManagerAct(p, a).value != M.Saved
  {
  }

  lemma OrphansOfManager(c: Config, p: Platform, a: Act)
    requires M.Inv(c.manager, p.mgr) && IdsInv(p) && RowsInv(c, p) && OrphansInv(p) && ListsInv(p) && AddingInv(p)
    requires Enabled(c, p, a) && (a.Manager? || a.WaitReturn? || a.AssignMatch? || a.AssignLost?)
    ensures var q := Next(c, p, a); OrphansInv(q) && ListsInv(q) && AddingInv(q)
  {
    var q := Next(c, p, a);
    IdsAreGood(c, p);
    ManagerFrame(c, p, a);
    ManagerAfter(c, p, a);
    LogsGrow(c, p, a);
    ManagerOrphans(c, p, q, ManagerAct(p, a).value);
    if a.AssignMatch? {
      AssignedIsDue(c, p, a.server);
    } else if q.mm.Adding? {
      ManagerAdding(c, p, q, ManagerAct(p, a).value);
    }
  }

  lemma OrphansOfRemoving(c: Config, p: Platform, applied: bool)
    requires M.Inv(c.manager, p.mgr) && IdsInv(p) && RowsInv(c, p) && OrphansInv(p) && ListsInv(p) && AddingInv(p)
    requires Enabled(c, p, RemoveRun(applied))
    ensures var q := Next(c, p, RemoveRun(applied)); OrphansInv(q) && ListsInv(q) && AddingInv(q)
  {
    IdsAreGood(c, p);
    RemoveRunOrphans(c, p, applied);
    ManagerAfter(c, p, RemoveRun(applied));
    ManagerAdding(c, p, Next(c, p, RemoveRun(applied)), M.Removed);
  }

  lemma OrphansOfSaving(c: Config, p: Platform, applied: bool)
    requires M.Inv(c.manager, p.mgr) && IdsInv(p) && RowsInv(c, p) && OrphansInv(p) && ListsInv(p) && AddingInv(p)
    requires Enabled(c, p, SaveRun(applied))
    ensures var q := Next(c, p, SaveRun(applied)); OrphansInv(q) && ListsInv(q) && AddingInv(q)
  {
    IdsAreGood(c, p);
    SaveRunOrphans(c, p, applied);
    ManagerAfter(c, p, SaveRun(applied));
    ManagerAdding(c, p, Next(c, p, SaveRun(applied)), M.Saved);
  }

  lemma OrphansPart(c: Config, p: Platform, a: Act)
    requires M.Inv(c.manager, p.mgr) && IdsInv(p) && RowsInv(c, p) && OrphansInv(p) && ListsInv(p) && AddingInv(p)
    requires Enabled(c, p, a)
    ensures var q := Next(c, p, a); OrphansInv(q) && ListsInv(q) && AddingInv(q)
  {
    if IsQuiet(a) {
      QuietPart(c, p, a);
    } else if a.RemoveRun? {
      OrphansOfRemoving(c, p, a.applied);
    } else if a.SaveRun? {
      OrphansOfSaving(c, p, a.applied);
    } else if a.SetupRun? {
      SetupOrphans(c, p);
    } else if a.AddMatch? {
      AddMatchOrphans(c, p);
      AddMatchLists(c, p);
    } else {
      OrphansOfManager(c, p, a);
    }
  }

  /** Every step of the platform keeps the invariant. */
  lemma StepInv(c: Config, p: Platform, a: Act)
    requires Inv(c, p) && Enabled(c, p, a)
    ensures Inv(c, Next(c, p, a))
  {
    ManagerPart(c, p, a);
    IdsStep(c, p, a);
    RowsStep(c, p, a);
    ApiPart(c, p, a);
    OrphansPart(c, p, a);
  }

  lemma InitInv(c: Config, apis: nat)
    ensures Inv(c, Init(c, apis))
  {
    M.StartInv(c.manager, c.workerCount, multiset{});
  }

  lemma {:induction false} RunInv(c: Config, apis: nat, run: seq<Platform>, acts: seq<Act>, i: nat)
    requires IsRun(c, apis, run, acts) && i < |run|
    ensures Inv(c, run[i])
  {
    if i == 0 {
      InitInv(c, apis);
    } else {
      RunInv(c, apis, run, acts, i - 1);
      StepInv(c, run[i - 1], acts[i - 1]);
    }
  }
}

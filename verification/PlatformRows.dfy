/**
 * Tokens and rooms: what every step of the platform keeps about the rows of
 * users and matches.
 */
module PlatformRows {
  import opened Base
  import opened Tables
  import Pool
  import M = Manager
  import Q = QueueApi
  import opened Platform

  /**
   * A change of the rows that leaves matches, history, tokens and assignments
   * alone, except that it may clear users who are in a match.
   */
  ghost predicate Mild(t: Tables, u: Tables) {
    && (forall l :: l in t.users ==> l in u.users)
    && (forall l :: l in u.users ==>
          if l in t.users
          then
            || (&& u.users[l].matchId == t.users[l].matchId && u.users[l].token == t.users[l].token
                && (t.users[l].matchId.Some? ==> u.users[l].queuedUntil == t.users[l].queuedUntil))
            || (t.users[l].matchId.Some? && u.users[l].matchId.None?)
          else u.users[l].matchId.None?)
    && u.history == t.history
    && u.matches.Keys == t.matches.Keys
    && (forall id :: id in t.matches ==> u.matches[id].server == t.matches[id].server)
  }

  lemma ApiIsMild(t: Tables, q: Q.Act)
    ensures Mild(t, Q.NextTables(t, q))
  {
  }

  lemma SaverIsMild(t: Tables, id: int, res: Result)
    ensures Mild(t, RemoveStatus(t, id)) && Mild(t, SaveResults(t, res))
  {
  }

  lemma SmallIsMild(t: Tables, l: Login)
    ensures Mild(t, AddUser(t, l)) && Mild(t, TakeId(t))
  {
  }

  lemma SelfIsMild(t: Tables)
    ensures Mild(t, t)
  {
  }

  lemma UsersKept(t: Tables, u: Tables, configs: map<int, map<Login, Token>>)
    requires UsersInv(t, configs) && Mild(t, u)
    ensures UsersInv(u, configs)
  {
  }

  lemma MatchesKept(
    t: Tables, u: Tables, configs: map<int, map<Login, Token>>, servers: map<int, ServerInfo>, players: nat)
    requires MatchesInv(t, configs, servers, players) && Mild(t, u)
    ensures MatchesInv(u, configs, servers, players)
  {
  }

  lemma CarriedKept(t: Tables, u: Tables, mm: Matchmaker, players: nat)
    requires CarriedInv(t, mm, players) && Mild(t, u)
    ensures CarriedInv(u, mm, players)
  {
    forall l | l in Carried(mm) ensures l in u.users && u.users[l].matchId.None? {
    }
    forall l | l in CarriedTokens(mm) ensures l in u.users && u.users[l].token == Some(CarriedTokens(mm)[l]) {
      assert l in Carried(mm);
    }
  }

  /** A mild change of the rows, with the matchmaker where it was or carrying nobody. */
  lemma MildRows(c: Config, p: Platform, q: Platform)
    requires RowsInv(c, p) && Mild(p.db, q.db)
    requires q.configs == p.configs && q.servers == p.servers
    requires q.mm == p.mm || !Carries(q.mm)
    ensures RowsInv(c, q)
  {
    UsersKept(p.db, q.db, p.configs);
    MatchesKept(p.db, q.db, p.configs, p.servers, c.playersPerRoom);
    if q.mm == p.mm {
      CarriedKept(p.db, q.db, p.mm, c.playersPerRoom);
    }
  }

  // ----- Steps that are not mild -----

  lemma SetupRows(c: Config, p: Platform)
    requires RowsInv(c, p) && Enabled(c, p, SetupRun)
    ensures RowsInv(c, Next(c, p, SetupRun))
  {
    var u := Setup(p.db);
    assert forall l :: l in u.users ==> u.users[l].matchId.None?;
    assert MatchesInv(u, p.configs, p.servers, c.playersPerRoom);
  }

  lemma GatherRows(c: Config, p: Platform, users: set<Login>)
    requires RowsInv(c, p) && Enabled(c, p, Gather(users))
    ensures RowsInv(c, Next(c, p, Gather(users)))
  {
  }

  /** New tokens go only to users who are in no match. */
  lemma TokensKeepRows(c: Config, p: Platform, roster: map<Login, Token>)
    requires RowsInv(c, p) && p.mm.Tokening? && roster.Keys == p.mm.users
    ensures var u := SetTokens(p.db, roster);
            && UsersInv(u, p.configs)
            && MatchesInv(u, p.configs, p.servers, c.playersPerRoom)
            && CarriedInv(u, Numbering(roster), c.playersPerRoom)
  {
    var u := SetTokens(p.db, roster);
    forall l | l in u.users && u.users[l].matchId.Some? ensures u.users[l] == p.db.users[l] {
      assert l !in Carried(p.mm);
    }
    assert Carried(Numbering(roster)) == Carried(p.mm);
  }

  /** The rows after the matchmaker's transaction. */
  function Added(p: Platform): Tables
    requires p.mm.Adding?
  {
    InsertMatch(p.db, p.mm.roster.Keys, p.mm.server, p.mm.id)
  }

  /** The players put into the match are exactly those in its config, and no live match loses one. */
  lemma AddMatchUsers(c: Config, p: Platform)
    requires RowsInv(c, p) && IdsInv(p) && p.mm.Adding?
    ensures UsersInv(Added(p), p.configs)
  {
    var u := Added(p);
    var roster := p.mm.roster;
    forall l | l in u.users && u.users[l].matchId.Some?
      ensures var id := u.users[l].matchId.value;
              && id in u.matches && u.users[l].queuedUntil.None? && (l, id) in u.history
              && id in p.configs && l in p.configs[id] && u.users[l].token == Some(p.configs[id][l])
    {
      if l in roster {
        assert l in CarriedTokens(p.mm);
        assert u.users[l].matchId == Some(p.mm.id);
      } else {
        assert u.users[l] == p.db.users[l];
      }
    }
  }

  lemma AddMatchMatches(c: Config, p: Platform)
    requires RowsInv(c, p) && IdsInv(p) && p.mm.Adding?
    ensures MatchesInv(Added(p), p.configs, p.servers, c.playersPerRoom)
  {
    var u := Added(p);
    var added := p.mm.id;
    forall id | id in u.matches
      ensures id in p.configs && |p.configs[id].Keys| == c.playersPerRoom
      ensures id in p.servers && u.matches[id].server == p.servers[id]
      ensures forall l :: (l, id) in u.history <==> l in p.configs[id]
    {
      if id == added {
        assert forall l :: (l, id) !in p.db.history;
        assert Carries(p.mm);
      } else {
        assert id in p.db.matches;
        assert forall l :: (l, id) in u.history <==> (l, id) in p.db.history;
      }
    }
    assert forall l :: l in p.mm.roster ==> l in Carried(p.mm);
  }

  lemma AddMatchFields(c: Config, p: Platform)
    requires Enabled(c, p, AddMatch)
    ensures var q := Next(c, p, AddMatch);
            q.db == Added(p) && q.configs == p.configs && q.servers == p.servers && q.mm == Waiting
  {
  }

  lemma NobodyCarried(t: Tables, players: nat)
    ensures CarriedInv(t, Waiting, players)
  {
  }

  lemma AddMatchRows(c: Config, p: Platform)
    requires RowsInv(c, p) && IdsInv(p) && Enabled(c, p, AddMatch)
    ensures RowsInv(c, Next(c, p, AddMatch))
  {
    AddMatchFields(c, p);
    assert UsersInv(Added(p), p.configs) by {
      AddMatchUsers(c, p);
    }
    assert MatchesInv(Added(p), p.configs, p.servers, c.playersPerRoom) by {
      AddMatchMatches(c, p);
    }
    NobodyCarried(Added(p), c.playersPerRoom);
  }

  /** Recording the config of a new match id says nothing about the older ones. */
  lemma NewConfigRows(
    t: Tables, configs: map<int, map<Login, Token>>, servers: map<int, ServerInfo>,
    id: int, roster: map<Login, Token>, servers': map<int, ServerInfo>, players: nat)
    requires UsersInv(t, configs) && MatchesInv(t, configs, servers, players) && id !in t.matches
    requires forall m :: m in servers && m != id ==> m in servers' && servers'[m] == servers[m]
    ensures UsersInv(t, configs[id := roster])
    ensures MatchesInv(t, configs[id := roster], servers', players)
  {
  }

  lemma AssignFrame(c: Config, p: Platform, a: Act)
    requires Enabled(c, p, a) && (a.AssignMatch? || a.AssignLost?)
    ensures var q := Next(c, p, a);
            && q.db == p.db && q.configs == p.configs[p.mm.id := p.mm.roster]
            && (q.mm == Waiting || (q.mm.Adding? && q.mm.roster == p.mm.roster))
            && forall m :: m in p.servers && m != p.mm.id ==> m in q.servers && q.servers[m] == p.servers[m]
  {
  }

  lemma AssignRows(c: Config, p: Platform, a: Act)
    requires RowsInv(c, p) && IdsInv(p) && Enabled(c, p, a) && (a.AssignMatch? || a.AssignLost?)
    ensures RowsInv(c, Next(c, p, a))
  {
    var q := Next(c, p, a);
    AssignFrame(c, p, a);
    assert p.mm.id !in p.db.matches;
    NewConfigRows(p.db, p.configs, p.servers, p.mm.id, p.mm.roster, q.servers, c.playersPerRoom);
    assert q.mm.Adding? ==> Carried(q.mm) == Carried(p.mm) && CarriedTokens(q.mm) == CarriedTokens(p.mm);
  }

  lemma TokensRows(c: Config, p: Platform, a: Act)
    requires RowsInv(c, p) && Enabled(c, p, a) && (a.TokensRun? || a.TokensFailed?)
    ensures RowsInv(c, Next(c, p, a))
  {
    TokensKeepRows(c, p, a.roster);
  }

  lemma NextIdRows(c: Config, p: Platform, a: Act)
    requires RowsInv(c, p) && Enabled(c, p, a) && (a.NextId? || a.NextIdFailed?)
    ensures RowsInv(c, Next(c, p, a))
  {
    var q := Next(c, p, a);
    assert Mild(p.db, q.db);
    UsersKept(p.db, q.db, p.configs);
    MatchesKept(p.db, q.db, p.configs, p.servers, c.playersPerRoom);
    assert Carries(q.mm) ==> Carried(q.mm) == Carried(p.mm) && CarriedTokens(q.mm) == CarriedTokens(p.mm);
  }

  /** Every step keeps the rows consistent. */
  lemma RowsStep(c: Config, p: Platform, a: Act)
    requires RowsInv(c, p) && IdsInv(p) && Enabled(c, p, a)
    ensures RowsInv(c, Next(c, p, a))
  {
    if a.SetupRun? {
      SetupRows(c, p);
    } else if a.Gather? {
      GatherRows(c, p, a.users);
    } else if a.TokensRun? || a.TokensFailed? {
      TokensRows(c, p, a);
    } else if a.NextId? || a.NextIdFailed? {
      NextIdRows(c, p, a);
    } else if a.AssignMatch? || a.AssignLost? {
      AssignRows(c, p, a);
    } else if a.AddMatch? {
      AddMatchRows(c, p);
    } else {
      OtherRows(c, p, a);
    }
  }

  predicate IsOther(a: Act) {
    || a.Tick? || a.Reboot? || a.Manager? || a.WaitReturn? || a.GatherFailed? || a.AssignFailed?
    || a.AddFailed? || a.RemoveRun? || a.SaveRun? || a.NewUser? || a.Api?
  }

  /** What the other steps do to the rows. */
  function OtherTables(p: Platform, a: Act): Tables {
    match a
    case RemoveRun(true) => if p.mgr.saver.Removing? then RemoveStatus(p.db, p.mgr.saver.res.matchId) else p.db
    case SaveRun(true) => if p.mgr.saver.Saving? then SaveResults(p.db, p.mgr.saver.res) else p.db
    case NewUser(l) => AddUser(p.db, l)
    case Api(q) => Q.NextTables(p.db, q)
    case _ => p.db
  }

  lemma SaverRowsFrame(c: Config, p: Platform, a: Act)
    requires Enabled(c, p, a) && (a.RemoveRun? || a.SaveRun?)
    ensures Next(c, p, a).db == OtherTables(p, a)
  {
  }

  lemma OtherRowsFrame(c: Config, p: Platform, a: Act)
    requires Enabled(c, p, a) && IsOther(a)
    ensures Next(c, p, a).db == OtherTables(p, a)
  {
    if a.RemoveRun? || a.SaveRun? {
      SaverRowsFrame(c, p, a);
    }
  }

  lemma OtherFrame(c: Config, p: Platform, a: Act)
    requires Enabled(c, p, a) && IsOther(a)
    ensures var q := Next(c, p, a);
            q.configs == p.configs && q.servers == p.servers && (q.mm == p.mm || !Carries(q.mm))
  {
  }

  lemma OtherIsMild(p: Platform, a: Act)
    ensures Mild(p.db, OtherTables(p, a)) && OtherTables(p, a).nextId == p.db.nextId
  {
    if (a.RemoveRun? && p.mgr.saver.Removing?) || (a.SaveRun? && p.mgr.saver.Saving?) {
      SaverIsMild(p.db, p.mgr.saver.res.matchId, p.mgr.saver.res);
      SelfIsMild(p.db);
    } else if a.NewUser? {
      SmallIsMild(p.db, a.login);
    } else if a.Api? {
      ApiIsMild(p.db, a.api);
    } else {
      SelfIsMild(p.db);
    }
  }

  lemma OtherRows(c: Config, p: Platform, a: Act)
    requires RowsInv(c, p) && Enabled(c, p, a) && IsOther(a)
    ensures RowsInv(c, Next(c, p, a))
  {
    OtherRowsFrame(c, p, a);
    OtherFrame(c, p, a);
    OtherIsMild(p, a);
    MildRows(c, p, Next(c, p, a));
  }

  // ----- Match ids -----

  lemma OtherOffered(c: Config, p: Platform, a: Act)
    requires Enabled(c, p, a) && IsOther(a)
    ensures Next(c, p, a).mgr.pool.offered == p.mgr.pool.offered
  {
    if a.Manager? {
      M.NextOffered(c.manager, p.mgr, a.act);
    } else if a.WaitReturn? {
      M.NextOffered(c.manager, p.mgr, M.WaitCheck);
    } else if a.RemoveRun? {
      M.NextOffered(c.manager, p.mgr, M.Removed);
    } else if a.SaveRun? {
      M.NextOffered(c.manager, p.mgr, M.Saved);
    }
  }

  lemma IdsKept(p: Platform, q: Platform)
    requires IdsInv(p)
    requires q.mgr.pool.offered == p.mgr.pool.offered && q.configs == p.configs && q.servers == p.servers
    requires q.db.matches.Keys == p.db.matches.Keys && q.db.nextId >= p.db.nextId
    requires q.mm == p.mm || !(q.mm.Assigning? || q.mm.Adding?)
    ensures IdsInv(q)
  {
  }

  lemma NextIdIds(c: Config, p: Platform)
    requires IdsInv(p) && Enabled(c, p, NextId)
    ensures IdsInv(Next(c, p, NextId))
  {
  }

  lemma AssignIds(c: Config, p: Platform, a: Act)
    requires IdsInv(p) && Enabled(c, p, a) && (a.AssignMatch? || a.AssignLost?)
    ensures IdsInv(Next(c, p, a))
  {
    var m := if a.AssignMatch? then M.AssignOk(p.mm.id) else M.AssignLost(p.mm.id);
    M.NextOffered(c.manager, p.mgr, m);
    assert Next(c, p, a).mgr == M.Next(c.manager, p.mgr, m);
  }

  lemma AddMatchIds(c: Config, p: Platform)
    requires IdsInv(p) && Enabled(c, p, AddMatch)
    ensures IdsInv(Next(c, p, AddMatch))
  {
  }

  lemma IdsStep(c: Config, p: Platform, a: Act)
    requires IdsInv(p) && Enabled(c, p, a)
    ensures IdsInv(Next(c, p, a))
  {
    if a.NextId? {
      NextIdIds(c, p);
    } else if a.AssignMatch? || a.AssignLost? {
      AssignIds(c, p, a);
    } else if a.AddMatch? {
      AddMatchIds(c, p);
    } else {
      if IsOther(a) {
        OtherRowsFrame(c, p, a);
        OtherFrame(c, p, a);
        OtherIsMild(p, a);
        OtherOffered(c, p, a);
      }
      IdsKept(p, Next(c, p, a));
    }
  }
}

/**
 * The whole platform: the matchmaker, the worker manager with its saver, the
 * API instances and the rows they all change, interleaving step by step. The
 * server manager may die and start again at any point.
 */
module Platform {
  import opened Base
  import opened Tables
  import Pool
  import M = Manager
  import Q = QueueApi

  datatype Config = Config(manager: M.Config, workerCount: nat, playersPerRoom: nat)

  /** Where `matchmakingLoop` is, with what it carries from step to step. */
  datatype Matchmaker =
    | Starting
    | Waiting
    | Gathering
    | Tokening(users: set<Login>)
    | Numbering(roster: map<Login, Token>)
    | Assigning(roster: map<Login, Token>, id: int)
    | Adding(roster: map<Login, Token>, id: int, server: ServerInfo)
    | Stopped

  /**
   * The last six fields are logs. `configs` and `servers` hold, for a match id,
   * the players with their tokens that were put to a worker and the address
   * that AssignMatch returned. `premature` holds the matches whose row was added
   * after the saver had begun to process a result for them; `stranded` those
   * added when no further result was due and not saved since; `stuck` those
   * added when no further removal of their match status was due and not
   * removed since. `failed` holds the matches for which a statement of the
   * saver failed.
   */
  datatype Platform = Platform(
    now: Time,
    db: Tables,
    mgr: M.Mgr,
    mm: Matchmaker,
    api: Q.Api,
    configs: map<int, map<Login, Token>>,
    servers: map<int, ServerInfo>,
    premature: set<int>,
    stranded: set<int>,
    stuck: set<int>,
    failed: set<int>)

  datatype Act =
    | Tick(ms: nat)
    | Reboot
    | Manager(act: M.Act)
    | WaitReturn
    | SetupRun
    | Gather(users: set<Login>)
    | GatherFailed
    | TokensRun(roster: map<Login, Token>)
    | TokensFailed(roster: map<Login, Token>, applied: bool)
    | NextId
    | NextIdFailed(applied: bool)
    | AssignMatch(server: ServerInfo)
    | AssignLost
    | AssignFailed
    | AddMatch
    | AddFailed
    | RemoveRun(applied: bool)
    | SaveRun(applied: bool)
    | NewUser(login: Login)
    | Api(api: Q.Act)

  const NO_API := Q.Api([], {}, {}, multiset{}, [], {})

  /** An empty database, `apis` API instances, and a server manager that is about to start. */
  function Init(c: Config, apis: nat): Platform {
    Platform(
      0, EMPTY, M.Start(c.workerCount, multiset{}), Starting,
      NO_API.(instances := seq(apis, i => Q.Instance(Q.R.EMPTY_REGISTRY, true))),
      map[], map[], {}, {}, {}, {})
  }

  /** Steps of the manager that involve neither the matchmaker nor the rows. */
  predicate IsInternal(m: M.Mgr, a: M.Act) {
    match a
    case AssignOk(_) => false
    case AssignLost(_) => false
    case WaitCheck => !M.SomeFree(m) && !m.canceled
    case Removed => false
    case Saved => false
    case _ => true
  }

  // ----- Results that are still to come for a match -----

  /** A worker runs `id` and no result for it has been sent to the saver on the way to taking it off. */
  ghost predicate Owed(m: M.Mgr, id: int) {
    exists i :: 0 <= i < |m.pool.workers| && OwedBy(m, i, id)
  }

  predicate OwedBy(m: M.Mgr, i: nat, id: int)
    requires i < |m.pool.workers|
  {
    && m.pool.workers[i].matchId == id
    && !(m.inbox.Pushed? && m.inbox.res.matchId == id)
    && !(m.health.Marking? && m.health.next == i)
  }

  /** The saver has yet to remove the match status of `id`; it will, unless the context is canceled first. */
  ghost predicate RemoveDue(m: M.Mgr, id: int) {
    || M.HasId(m.chan, id)
    || (m.saver.Removing? && m.saver.res.matchId == id)
    || Owed(m, id)
  }

  /** The saver has yet to save a result for `id`. */
  ghost predicate SaveDue(m: M.Mgr, id: int) {
    RemoveDue(m, id) || (m.saver.Saving? && m.saver.res.matchId == id)
  }

  /** The saver has begun to process a result for `id`. */
  predicate Begun(m: M.Mgr, id: int) {
    M.HasId(m.received, id)
  }

  // ----- Steps -----

  ghost predicate Enabled(c: Config, p: Platform, a: Act) {
    match a
    case Tick(_) => true
    case Reboot => true
    case Manager(m) =>
      && M.Enabled(c.manager, p.mgr, m) && M.Proper(p.mgr, m) && IsInternal(p.mgr, m)
      && (m == M.WaitLock ==> p.mm == Waiting)
    case WaitReturn =>
      && p.mm == Waiting && M.Enabled(c.manager, p.mgr, M.WaitCheck)
      && (M.SomeFree(p.mgr) || p.mgr.canceled)
    case SetupRun => p.mm == Starting
    case Gather(users) => p.mm == Gathering && MayGather(p.db, p.now, c.playersPerRoom, users)
    case GatherFailed => p.mm == Gathering
    case TokensRun(roster) => p.mm.Tokening? && roster.Keys == p.mm.users
    case TokensFailed(roster, _) => p.mm.Tokening? && roster.Keys == p.mm.users
    case NextId => p.mm.Numbering?
    case NextIdFailed(_) => p.mm.Numbering?
    case AssignMatch(_) => p.mm.Assigning? && M.Enabled(c.manager, p.mgr, M.AssignOk(p.mm.id))
    case AssignLost => p.mm.Assigning? && M.Enabled(c.manager, p.mgr, M.AssignLost(p.mm.id))
    case AssignFailed => p.mm.Assigning?
    case AddMatch => p.mm.Adding? && MatchInsertable(p.db, p.mm.roster.Keys, p.mm.id)
    case AddFailed => p.mm.Adding?
    case RemoveRun(_) => M.Enabled(c.manager, p.mgr, M.Removed)
    case SaveRun(_) => M.Enabled(c.manager, p.mgr, M.Saved)
    case NewUser(_) => true
    case Api(q) => Q.Enabled(p.api, q)
  }

  /** The newest websockets of some users: what a change of their rows may take off the queue. */
  function NewestKeys(t: Tables, logins: set<Login>): set<Key> {
    set l | l in logins && l in t.users :: Key(l, t.users[l].lastWs)
  }

  ghost function Next(c: Config, p: Platform, a: Act): Platform
    requires Enabled(c, p, a)
  {
    match a
    case Tick(ms) => p.(now := p.now + ms)
    case Reboot =>
      p.(mgr := M.Start(c.workerCount, p.mgr.pool.offered), mm := Starting,
         premature := {}, stranded := {}, stuck := {}, failed := {})
    case Manager(m) => p.(mgr := M.Next(c.manager, p.mgr, m))
    case WaitReturn =>
      p.(mgr := M.Next(c.manager, p.mgr, M.WaitCheck),
         mm := if p.mgr.canceled then Stopped else Gathering)
    case SetupRun =>
      p.(db := Setup(p.db), mm := Waiting,
         api := p.api.(touched := p.api.touched + NewestKeys(p.db, p.db.users.Keys)),
         premature := {}, stranded := {}, stuck := {}, failed := {})
    case Gather(users) => p.(mm := Tokening(users))
    case GatherFailed => p.(mm := Waiting)
    case TokensRun(roster) => p.(db := SetTokens(p.db, roster), mm := Numbering(roster))
    case TokensFailed(roster, applied) =>
      p.(db := if applied then SetTokens(p.db, roster) else p.db, mm := Waiting)
    case NextId => p.(db := TakeId(p.db), mm := Assigning(p.mm.roster, p.db.nextId))
    case NextIdFailed(applied) => p.(db := if applied then TakeId(p.db) else p.db, mm := Waiting)
    case AssignMatch(server) =>
      p.(mgr := M.Next(c.manager, p.mgr, M.AssignOk(p.mm.id)),
         mm := Adding(p.mm.roster, p.mm.id, server),
         configs := p.configs[p.mm.id := p.mm.roster],
         servers := p.servers[p.mm.id := server])
    case AssignLost =>
      p.(mgr := M.Next(c.manager, p.mgr, M.AssignLost(p.mm.id)), mm := Waiting,
         configs := p.configs[p.mm.id := p.mm.roster])
    case AssignFailed => p.(mm := Waiting)
    case AddMatch =>
      var id := p.mm.id;
      p.(db := InsertMatch(p.db, p.mm.roster.Keys, p.mm.server, id), mm := Waiting,
         api := p.api.(touched := p.api.touched + NewestKeys(p.db, p.mm.roster.Keys)),
         premature := if Begun(p.mgr, id) then p.premature + {id} else p.premature,
         stranded := if SaveDue(p.mgr, id) then p.stranded else p.stranded + {id},
         stuck := if RemoveDue(p.mgr, id) then p.stuck else p.stuck + {id})
    case AddFailed => p.(mm := Waiting)
    case RemoveRun(applied) =>
      var id := p.mgr.saver.res.matchId;
      var q := p.(mgr := M.Next(c.manager, p.mgr, M.Removed));
      if applied then q.(db := RemoveStatus(p.db, id), stuck := p.stuck - {id})
      else q.(failed := p.failed + {id})
    case SaveRun(applied) =>
      var res := p.mgr.saver.res;
      var q := p.(mgr := M.Next(c.manager, p.mgr, M.Saved));
      if applied then q.(db := SaveResults(p.db, res), stranded := p.stranded - {res.matchId})
      else q.(failed := p.failed + {res.matchId})
    case NewUser(l) => p.(db := AddUser(p.db, l))
    case Api(q) => p.(api := Q.Next(p.api, p.db, q), db := Q.NextTables(p.db, q))
  }

  /** `run[i]` is the state before step `acts[i]`. */
  ghost predicate IsRun(c: Config, apis: nat, run: seq<Platform>, acts: seq<Act>) {
    && c.playersPerRoom >= 2
    && |run| == |acts| + 1
    && run[0] == Init(c, apis)
    && forall i :: 0 <= i < |acts| ==> Enabled(c, run[i], acts[i]) && run[i + 1] == Next(c, run[i], acts[i])
  }

  // ----- The rows -----

  /** The manager, the sequence and the logs agree on which match ids exist. */
  ghost predicate IdsInv(p: Platform) {
    && p.db.nextId >= 1
    && (forall id :: id in p.mgr.pool.offered ==> id < p.db.nextId)
    && (forall id :: id in p.configs ==> id in p.mgr.pool.offered)
    && (forall id :: id in p.servers ==> id in p.configs)
    && (forall id :: id in p.db.matches ==> id in p.servers)
    && (p.mm.Assigning? ==> 1 <= p.mm.id < p.db.nextId && p.mm.id !in p.mgr.pool.offered)
    && (p.mm.Adding? ==>
          && p.mm.id in p.servers && p.mm.id in p.configs && p.mm.id !in p.db.matches
          && p.configs[p.mm.id] == p.mm.roster && p.servers[p.mm.id] == p.mm.server)
  }

  /** A user in a match is off the queue, in its history, and holds the token its worker was given. */
  ghost predicate UsersInv(t: Tables, configs: map<int, map<Login, Token>>) {
    forall l :: l in t.users && t.users[l].matchId.Some? ==>
      var id := t.users[l].matchId.value;
      && id in t.matches
      && t.users[l].queuedUntil.None?
      && (l, id) in t.history
      && id in configs && l in configs[id] && t.users[l].token == Some(configs[id][l])
  }

  /** A match has the address its worker was reached at, and as many players as its config has. */
  ghost predicate MatchesInv(
    t: Tables, configs: map<int, map<Login, Token>>, servers: map<int, ServerInfo>, players: nat)
  {
    && (forall id :: id in t.matches ==>
          && id in configs && |configs[id].Keys| == players
          && id in servers && t.matches[id].server == servers[id]
          && forall l :: (l, id) in t.history <==> l in configs[id])
    && (forall l, id :: (l, id) in t.history ==> l in t.users && id in t.matches)
  }

  /** The users the matchmaker carries, and their tokens once it has them. */
  function Carried(mm: Matchmaker): set<Login> {
    match mm
    case Tokening(users) => users
    case Numbering(roster) => roster.Keys
    case Assigning(roster, _) => roster.Keys
    case Adding(roster, _, _) => roster.Keys
    case _ => {}
  }

  predicate Carries(mm: Matchmaker) {
    mm.Tokening? || mm.Numbering? || mm.Assigning? || mm.Adding?
  }

  function CarriedTokens(mm: Matchmaker): map<Login, Token> {
    match mm
    case Numbering(roster) => roster
    case Assigning(roster, _) => roster
    case Adding(roster, _, _) => roster
    case _ => map[]
  }

  /** Nobody else takes the players the matchmaker has gathered, nor their tokens. */
  ghost predicate CarriedInv(t: Tables, mm: Matchmaker, players: nat) {
    && (Carries(mm) ==> |Carried(mm)| == players)
    && (forall l :: l in Carried(mm) ==> l in t.users && t.users[l].matchId.None?)
    && (forall l :: l in CarriedTokens(mm) ==> l in t.users && t.users[l].token == Some(CarriedTokens(mm)[l]))
  }

  ghost predicate RowsInv(c: Config, p: Platform) {
    && UsersInv(p.db, p.configs)
    && MatchesInv(p.db, p.configs, p.servers, c.playersPerRoom)
    && CarriedInv(p.db, p.mm, c.playersPerRoom)
  }
}

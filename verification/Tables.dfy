/**
 * The Postgres rows that the server manager and the API share, and the SQL
 * statements and transactions on them. `NOW()` is the `now` argument.
 */
module Tables {
  import opened Base

  datatype UserRow = UserRow(
    matchId: Option<int>,
    token: Option<Token>,
    queuedUntil: Option<Time>,
    lastWs: nat)

  datatype MatchRow = MatchRow(
    server: ServerInfo,
    active: bool,
    canceled: bool,
    results: Option<Details>)

  /** `nextId` is the value that the next `nextval('matches_id_seq')` returns. */
  datatype Tables = Tables(
    users: map<Login, UserRow>,
    matches: map<int, MatchRow>,
    history: set<(Login, int)>,
    nextId: nat)

  /** A websocket as the database knows it: a login and an allocated websocket id. */
  datatype Key = Key(login: Login, ws: nat)

  const EMPTY := Tables(map[], map[], {}, 1)
  const NEW_USER := UserRow(None, None, None, 0)

  // ----- server-manager/adapters/db.go -----

  predicate Gatherable(row: UserRow, now: Time) {
    row.queuedUntil.Some? && row.queuedUntil.value > now && row.matchId.None?
  }

  /** What `GatherMatchPlayers` may return: any `n` distinct waiting users. */
  predicate MayGather(t: Tables, now: Time, n: nat, logins: set<Login>) {
    && |logins| == n
    && forall l :: l in logins ==> l in t.users && Gatherable(t.users[l], now)
  }

  function SetTokens(t: Tables, roster: map<Login, Token>): Tables {
    t.(users := map l | l in t.users ::
                  if l in roster then t.users[l].(token := Some(roster[l])) else t.users[l])
  }

  function TakeId(t: Tables): Tables {
    t.(nextId := t.nextId + 1)
  }

  /** The keys hold: the id is new, and every listed user exists and is not yet in the match. */
  predicate MatchInsertable(t: Tables, logins: set<Login>, id: int) {
    && id !in t.matches
    && forall l :: l in logins ==> l in t.users && (l, id) !in t.history
  }

  function InsertMatch(t: Tables, logins: set<Login>, server: ServerInfo, id: int): Tables {
    t.(matches := t.matches[id := MatchRow(server, true, false, None)],
       history := t.history + set l | l in logins :: (l, id),
       users := map l | l in t.users ::
                  if l in logins then t.users[l].(matchId := Some(id), queuedUntil := None) else t.users[l])
  }

  function RemoveStatus(t: Tables, id: int): Tables {
    t.(users := map l | l in t.users ::
                  if t.users[l].matchId == Some(id)
                  then t.users[l].(matchId := None, queuedUntil := None, token := None)
                  else t.users[l])
  }

  function SaveResults(t: Tables, res: Result): Tables {
    if res.matchId !in t.matches then t
    else
      t.(matches := t.matches[res.matchId :=
                      t.matches[res.matchId].(results := Some(res.details),
                                              canceled := !res.success,
                                              active := false)])
  }

  function Setup(t: Tables): Tables {
    t.(users := map l | l in t.users ::
                  t.users[l].(matchId := None, queuedUntil := None, token := None),
       matches := map id | id in t.matches ::
                    if t.matches[id].active
                    then t.matches[id].(active := false, canceled := true, results := Some("{}"))
                    else t.matches[id])
  }

  // ----- api/src/lib/db.js -----

  function AddUser(t: Tables, l: Login): Tables {
    if l in t.users then t else t.(users := t.users[l := NEW_USER])
  }

  /** `setQueueStatus`: the id it allocates, or None when the user is in a match or unknown. */
  function QueueId(t: Tables, l: Login): Option<nat> {
    if l in t.users && t.users[l].matchId.None? then Some(t.users[l].lastWs + 1) else None
  }

  function SetQueue(t: Tables, l: Login, until: Time): Tables {
    if QueueId(t, l).None? then t
    else
      t.(users := t.users[l := t.users[l].(lastWs := t.users[l].lastWs + 1, queuedUntil := Some(until))])
  }

  predicate Extends(row: UserRow, l: Login, keys: set<Key>) {
    Key(l, row.lastWs) in keys && row.matchId.None? && row.queuedUntil.Some?
  }

  function Extend(t: Tables, keys: set<Key>, until: Time): Tables {
    t.(users := map l | l in t.users ::
                  if Extends(t.users[l], l, keys)
                  then t.users[l].(queuedUntil := Some(until)) else t.users[l])
  }

  function RemoveQueue(t: Tables, k: Key): Tables {
    if k.login in t.users && t.users[k.login].lastWs == k.ws && t.users[k.login].matchId.None?
    then t.(users := t.users[k.login := t.users[k.login].(queuedUntil := None)])
    else t
  }

  datatype Status = Status(ws: nat, matchId: Option<int>, token: Option<Token>, server: Option<ServerInfo>)

  /** One user's row in `getConnectionStatuses`: the LEFT JOIN with its match. */
  function StatusOf(t: Tables, l: Login): Status
    requires l in t.users
  {
    var row := t.users[l];
    Status(row.lastWs, row.matchId, row.token,
           if row.matchId.Some? && row.matchId.value in t.matches
           then Some(t.matches[row.matchId.value].server) else None)
  }

  function Statuses(t: Tables, keys: set<Key>): map<Login, Status> {
    map l | l in (set k | k in keys :: k.login) && l in t.users :: StatusOf(t, l)
  }
}

/**
 * The two database adapters over one set of tables: the server manager's
 * transactions and the API's statements. Each `fault` argument says that the
 * statement, or the commit, fails although the keys would allow it.
 */
module Databases {
  import opened Base
  import opened Tables

  /** `init.sql`: a user's match and both ends of a history row exist. */
  ghost predicate ForeignKeys(t: Tables) {
    && (forall l :: l in t.users && t.users[l].matchId.Some? ==> t.users[l].matchId.value in t.matches)
    && (forall l, id :: (l, id) in t.history ==> l in t.users && id in t.matches)
  }

  predicate Distinct(s: seq<Login>) {
    forall i, j :: 0 <= i < j < |s| ==> s[i] != s[j]
  }

  function LoginsOf(s: seq<Login>): set<Login> {
    set l | l in s
  }

  lemma DistinctSize(s: seq<Login>)
    requires Distinct(s)
    ensures |LoginsOf(s)| == |s|
  {
    if s == [] {
      assert LoginsOf(s) == {};
    } else {
      DistinctSize(s[1..]);
      assert LoginsOf(s) == {s[0]} + LoginsOf(s[1..]);
    }
  }

  /** The users that `WHERE queued_until > NOW() AND match_id IS NULL` selects. */
  function WaitingUsers(t: Tables, now: Time): set<Login> {
    set l | l in t.users && Gatherable(t.users[l], now)
  }

  /** An answer to the SELECT of `GatherMatchPlayers`, which has a LIMIT and no ORDER BY. */
  predicate IsSelection(t: Tables, now: Time, limit: nat, rows: seq<Login>) {
    && Distinct(rows) && LoginsOf(rows) <= WaitingUsers(t, now)
    && |rows| == if |WaitingUsers(t, now)| < limit then |WaitingUsers(t, now)| else limit
  }

  /** Where a transaction may fail: at BEGIN, at one of its statements, or at COMMIT. */
  datatype Faults = Faults(begin: bool, first: bool, second: bool, third: bool, commit: bool)

  datatype Gathering = Players(logins: seq<Login>) | NotEnough | GatherFailed

  datatype SaveOutcome = SaveDone | MatchNotFound | SaveFailed

  class Database {
    const playersPerRoom: nat

    var users: map<Login, UserRow>
    var matches: map<int, MatchRow>
    var history: set<(Login, int)>
    var nextId: nat

    function View(): Tables
      reads this
    {
      Tables(users, matches, history, nextId)
    }

    /** The players of a match: enough of them or none, and all of them waiting. */
    method GatherMatchPlayers(now: Time, rows: seq<Login>, fault: bool) returns (r: Gathering)
      requires IsSelection(View(), now, playersPerRoom, rows)
      ensures r == GatherFailed <==> fault
      ensures r == NotEnough <==> !fault && |WaitingUsers(View(), now)| < playersPerRoom
      ensures r.Players? ==> Distinct(r.logins) && MayGather(View(), now, playersPerRoom, LoginsOf(r.logins))
    {
      if fault {
        return GatherFailed;
      }
      if |rows| < playersPerRoom {
        return NotEnough;
      }
      DistinctSize(rows);
      return Players(rows);
    }

    /** `draw` is what `gen_random_bytes` yields for each of the logins. */
    method GenerateAuthTokens(logins: seq<Login>, draw: map<Login, Token>, fault: bool)
      returns (roster: Option<map<Login, Token>>)
      requires draw.Keys == LoginsOf(logins)
      modifies this`users
      ensures roster.None? <==> fault
      ensures fault ==> View() == old(View())
      ensures !fault ==>
                && View() == SetTokens(old(View()), draw)
                && roster.value.Keys == LoginsOf(logins) * users.Keys
                && (forall l :: l in roster.value ==> users[l].token == Some(roster.value[l]))
      ensures users.Keys == old(users).Keys
      ensures forall l :: l in users && (fault || l !in LoginsOf(logins)) ==> users[l] == old(users)[l]
      ensures forall l :: l in users ==> users[l] == old(users)[l].(token := users[l].token)
      ensures old(ForeignKeys(View())) ==> ForeignKeys(View())
    {
      if fault {
        return None;
      }
      users := map l | l in users :: if l in draw then users[l].(token := Some(draw[l])) else users[l];
      return Some(map l | l in draw && l in users :: draw[l]);
    }

    /** All or nothing: either every row of the match is there, or the tables are as they were. */
    method AddMatch(logins: seq<Login>, server: ServerInfo, id: int, faults: Faults) returns (ok: bool)
      modifies this`users, this`matches, this`history
      ensures View() == if ok then InsertMatch(old(View()), LoginsOf(logins), server, id) else old(View())
      ensures ok <==>
              && faults == Faults(false, false, false, false, false)
              && Distinct(logins) && old(MatchInsertable(View(), LoginsOf(logins), id))
      ensures ok ==>
                && id !in old(matches) && matches == old(matches)[id := MatchRow(server, true, false, None)]
                && users.Keys == old(users).Keys
                && (forall l :: l in logins ==>
                      && l in users && users[l] == old(users)[l].(matchId := Some(id), queuedUntil := None)
                      && (l, id) in history)
                && (forall l :: l in users && l !in logins ==> users[l] == old(users)[l])
                && (forall e :: e in history ==> e in old(history) || (e.0 in logins && e.1 == id))
      ensures old(ForeignKeys(View())) ==> ForeignKeys(View())
    {
      if faults.begin {
        return false;
      }
      var m, h, u := matches, history, users;

      if faults.first || id in m {
        return false;
      }
      m := m[id := MatchRow(server, true, false, None)];

      if faults.second || !Distinct(logins) || exists l :: l in logins && (l !in u || (l, id) in h) {
        return false;
      }
      h := h + set l | l in LoginsOf(logins) :: (l, id);

      if faults.third {
        return false;
      }
      u := map l | l in u ::
        if l in LoginsOf(logins) then u[l].(matchId := Some(id), queuedUntil := None) else u[l];

      if faults.commit {
        return false;
      }
      matches, history, users := m, h, u;
      return true;
    }

    method SaveMatchResults(res: Result, fault: bool) returns (r: SaveOutcome)
      modifies this`matches
      ensures r == if fault then SaveFailed else if res.matchId in old(matches) then SaveDone else MatchNotFound
      ensures View() == if r == SaveDone then SaveResults(old(View()), res) else old(View())
      ensures r == SaveDone ==>
                matches == old(matches)[res.matchId :=
                             MatchRow(old(matches)[res.matchId].server, false, !res.success, Some(res.details))]
      ensures old(ForeignKeys(View())) ==> ForeignKeys(View())
    {
      if fault {
        return SaveFailed;
      }
      if res.matchId !in matches {
        return MatchNotFound;
      }
      matches := matches[res.matchId :=
        matches[res.matchId].(results := Some(res.details), canceled := !res.success, active := false)];
      return SaveDone;
    }

    method GetNextMatchId(fault: bool) returns (id: Option<nat>)
      modifies this`nextId
      ensures View() == if fault then old(View()) else TakeId(old(View()))
      ensures id == if fault then None else Some(old(nextId))
    {
      if fault {
        return None;
      }
      nextId := nextId + 1;
      return Some(nextId - 1);
    }

    method RemoveMatchStatus(id: int, fault: bool) returns (ok: bool)
      modifies this`users
      ensures ok <==> !fault
      ensures View() == if ok then RemoveStatus(old(View()), id) else old(View())
      ensures old(ForeignKeys(View())) ==> ForeignKeys(View())
      ensures users.Keys == old(users).Keys
      ensures ok ==> forall l :: l in users ==>
                users[l] == if old(users)[l].matchId == Some(id) then UserRow(None, None, None, old(users)[l].lastWs)
                            else old(users)[l]
    {
      if fault {
        return false;
      }
      users := map l | l in users ::
        if users[l].matchId == Some(id)
        then users[l].(matchId := None, queuedUntil := None, token := None) else users[l];
      return true;
    }

    method SetupMatchmaking(faults: Faults) returns (ok: bool)
      modifies this`users, this`matches
      ensures ok <==> !(faults.begin || faults.first || faults.second || faults.commit)
      ensures View() == if ok then Setup(old(View())) else old(View())
      ensures matches.Keys == old(matches).Keys && users.Keys == old(users).Keys
      ensures ok ==>
                && (forall id :: id in matches && !old(matches)[id].active ==> matches[id] == old(matches)[id])
                && (forall id :: id in matches && old(matches)[id].active ==>
                      matches[id] == MatchRow(old(matches)[id].server, false, true, Some("{}")))
                && (forall l :: l in users ==> users[l] == UserRow(None, None, None, old(users)[l].lastWs))
      ensures old(ForeignKeys(View())) ==> ForeignKeys(View())
    {
      if faults.begin {
        return false;
      }
      if faults.first {
        return false;
      }
      var u := map l | l in users :: users[l].(matchId := None, queuedUntil := None, token := None);
      if faults.second {
        return false;
      }
      var m := map id | id in matches ::
        if matches[id].active then matches[id].(active := false, canceled := true, results := Some("{}"))
        else matches[id];
      if faults.commit {
        return false;
      }
      users, matches := u, m;
      return true;
    }

    // ----- api/src/lib/db.js -----

    /** A newer websocket gets a larger id; a user in a match gets none and is left alone. */
    method SetQueueStatus(l: Login, now: Time, ms: nat) returns (id: Option<nat>)
      modifies this`users
      ensures View() == SetQueue(old(View()), l, now + ms)
      ensures id == QueueId(old(View()), l)
      ensures id.Some? ==> id.value == old(users)[l].lastWs + 1 == users[l].lastWs
      ensures id.None? <==> l !in old(users) || old(users)[l].matchId.Some?
      ensures id.None? ==> users == old(users)
      ensures id.Some? ==>
                var row := old(users)[l];
                users == old(users)[l := row.(lastWs := row.lastWs + 1, queuedUntil := Some(now + ms))]
    {
      if l !in users || users[l].matchId.Some? {
        return None;
      }
      var ws := users[l].lastWs + 1;
      users := users[l := users[l].(lastWs := ws, queuedUntil := Some(now + ms))];
      return Some(ws);
    }

    method ExtendQueueStatuses(keys: set<Key>, now: Time, ms: nat)
      modifies this`users
      ensures View() == Extend(old(View()), keys, now + ms)
      ensures users.Keys == old(users).Keys
      ensures forall l :: l in users ==>
                var row := old(users)[l];
                users[l] == if Key(l, row.lastWs) in keys && row.matchId.None? && row.queuedUntil.Some?
                            then row.(queuedUntil := Some(now + ms)) else row
    {
      if keys == {} {
        assert users == Extend(View(), keys, now + ms).users;
        return;
      }
      users := map l | l in users ::
        if Extends(users[l], l, keys) then users[l].(queuedUntil := Some(now + ms)) else users[l];
    }

    /** A stale websocket cannot take a newer one off the queue. */
    method RemoveQueueStatus(k: Key)
      modifies this`users
      ensures View() == RemoveQueue(old(View()), k)
      ensures users ==
              if k.login in old(users) && old(users)[k.login].lastWs == k.ws && old(users)[k.login].matchId.None?
              then old(users)[k.login := old(users)[k.login].(queuedUntil := None)] else old(users)
    {
      if k.login in users && users[k.login].lastWs == k.ws && users[k.login].matchId.None? {
        users := users[k.login := users[k.login].(queuedUntil := None)];
      }
    }

    method GetConnectionStatuses(keys: set<Key>) returns (statuses: map<Login, Status>)
      ensures statuses == Statuses(View(), keys)
      ensures forall l :: l in statuses <==> l in users && exists k :: k in keys && k.login == l
      ensures forall l :: l in statuses ==>
                && statuses[l].ws == users[l].lastWs
                && statuses[l].matchId == users[l].matchId && statuses[l].token == users[l].token
                && statuses[l].server ==
                   if users[l].matchId.Some? && users[l].matchId.value in matches
                   then Some(matches[users[l].matchId.value].server) else None
    {
      if keys == {} {
        assert Statuses(View(), keys) == map[];
        return map[];
      }
      statuses := map l | l in (set k | k in keys :: k.login) && l in users :: StatusOf(View(), l);
    }
  }
}

/** What the whole platform guarantees, in every run. */
module PlatformTheorems {
  import opened Base
  import opened Tables
  import opened Workers
  import Pool
  import PT = PoolTheorems
  import M = Manager
  import R = Registry
  import Q = QueueApi
  import opened Platform
  import opened PlatformRows
  import opened PlatformOrphans
  import opened PlatformInvariant

  // ----- Tokens -----

  /**
   * Token agreement: in every reachable state, a user who is in match `id` has
   * exactly the token that the config sent to the worker of `id` gives the user.
   */
  lemma TokenAgreement(c: Config, apis: nat, run: seq<Platform>, acts: seq<Act>, i: nat, l: Login)
    requires IsRun(c, apis, run, acts) && i < |run|
    requires l in run[i].db.users && run[i].db.users[l].matchId.Some?
    ensures var id := run[i].db.users[l].matchId.value;
            && id in run[i].configs && l in run[i].configs[id]
            && run[i].db.users[l].token == Some(run[i].configs[id][l])
  {
    RunInv(c, apis, run, acts, i);
  }

  /** The user stays in its match with its token. */
  predicate Stays(t: Tables, u: Tables, l: Login)
    requires l in t.users
  {
    l in u.users && u.users[l].matchId == t.users[l].matchId && u.users[l].token == t.users[l].token
  }

  /** The steps that may take a user out of match `id`. */
  predicate Releases(p: Platform, a: Act, id: int) {
    || a == SetupRun
    || (a == RemoveRun(true) && p.mgr.saver.Removing? && p.mgr.saver.res.matchId == id)
  }

  lemma OtherLeaves(p: Platform, a: Act, l: Login)
    requires l in p.db.users && p.db.users[l].matchId.Some?
    ensures Stays(p.db, OtherTables(p, a), l) || Releases(p, a, p.db.users[l].matchId.value)
    ensures l in OtherTables(p, a).users
    ensures Stays(p.db, OtherTables(p, a), l) || OtherTables(p, a).users[l].matchId.None?
  {
  }

  lemma LeavingStep(c: Config, p: Platform, a: Act, l: Login)
    requires CarriedInv(p.db, p.mm, c.playersPerRoom) && Enabled(c, p, a)
    requires l in p.db.users && p.db.users[l].matchId.Some?
    ensures l in Next(c, p, a).db.users
    ensures Stays(p.db, Next(c, p, a).db, l) || Releases(p, a, p.db.users[l].matchId.value)
    ensures Stays(p.db, Next(c, p, a).db, l) || Next(c, p, a).db.users[l].matchId.None?
  {
    assert l !in Carried(p.mm);
    if IsOther(a) {
      OtherRowsFrame(c, p, a);
      OtherFrame(c, p, a);
      OtherLeaves(p, a, l);
    }
  }

  /**
   * Nobody re-tokens a player or moves it to another match: a user in match
   * `id` keeps both until the saver removes the status of `id` or a new run of
   * the server manager sets matchmaking up; and then it is in no match.
   */
  lemma TokensAreLeftAlone(c: Config, apis: nat, run: seq<Platform>, acts: seq<Act>, i: nat, l: Login)
    requires IsRun(c, apis, run, acts) && i < |acts|
    requires l in run[i].db.users && run[i].db.users[l].matchId.Some?
    ensures l in run[i + 1].db.users
    ensures || Stays(run[i].db, run[i + 1].db, l)
            || (&& run[i + 1].db.users[l].matchId.None?
                && Releases(run[i], acts[i], run[i].db.users[l].matchId.value))
  {
    RunInv(c, apis, run, acts, i);
    LeavingStep(c, run[i], acts[i], l);
  }

  // ----- Rooms -----

  /** The players that `user_matches` lists for a match. */
  function PlayersOf(t: Tables, id: int): set<Login> {
    set e | e in t.history && e.1 == id :: e.0
  }

  /**
   * At each AddMatch every listed user is in no match and enters this one, off
   * the queue; no other user's row changes, so no live match loses a player.
   */
  lemma RoomsNeverSteal(c: Config, apis: nat, run: seq<Platform>, acts: seq<Act>, i: nat)
    requires IsRun(c, apis, run, acts) && i < |acts| && acts[i] == AddMatch
    ensures |run[i].mm.roster.Keys| == c.playersPerRoom
    ensures run[i + 1].db.users.Keys == run[i].db.users.Keys && run[i].mm.roster.Keys <= run[i].db.users.Keys
    ensures forall l :: l in run[i].mm.roster ==>
              && run[i].db.users[l].matchId.None?
              && run[i + 1].db.users[l] == run[i].db.users[l].(matchId := Some(run[i].mm.id), queuedUntil := None)
    ensures forall l :: l in run[i].db.users && l !in run[i].mm.roster ==>
              run[i + 1].db.users[l] == run[i].db.users[l]
  {
    assert CarriedInv(run[i].db, run[i].mm, c.playersPerRoom) by {
      RunInv(c, apis, run, acts, i);
    }
    assert Carries(run[i].mm) && Carried(run[i].mm) == run[i].mm.roster.Keys;
    AddMatchFields(c, run[i]);
  }

  /** Every committed match has exactly `playersPerRoom` players, the ones in its worker's config. */
  lemma RoomsAreFull(c: Config, apis: nat, run: seq<Platform>, acts: seq<Act>, i: nat, id: int)
    requires IsRun(c, apis, run, acts) && i < |run| && id in run[i].db.matches
    ensures |PlayersOf(run[i].db, id)| == c.playersPerRoom
    ensures id in run[i].configs && PlayersOf(run[i].db, id) == run[i].configs[id].Keys
    ensures id in run[i].servers && run[i].db.matches[id].server == run[i].servers[id]
  {
    RunInv(c, apis, run, acts, i);
    var t := run[i].db;
    forall l | l in run[i].configs[id] ensures l in PlayersOf(t, id) {
      assert (l, id) in t.history;
    }
    assert PlayersOf(t, id) == run[i].configs[id].Keys;
  }

  /** A user in a match is not queued, and the history row of the match exists. */
  lemma InMatchMeansNotQueued(c: Config, apis: nat, run: seq<Platform>, acts: seq<Act>, i: nat, l: Login)
    requires IsRun(c, apis, run, acts) && i < |run|
    requires l in run[i].db.users && run[i].db.users[l].matchId.Some?
    ensures run[i].db.users[l].queuedUntil.None?
    ensures run[i].db.users[l].matchId.value in run[i].db.matches
    ensures (l, run[i].db.users[l].matchId.value) in run[i].db.history
  {
    RunInv(c, apis, run, acts, i);
  }

  // ----- Match ids -----

  /**
   * Unique ownership across restarts of the server manager: every match id is
   * offered to at most one worker ever, ids in use are below the next value of
   * the sequence, and two workers never hold the same one.
   */
  lemma MatchIdsAreUsedOnce(c: Config, apis: nat, run: seq<Platform>, acts: seq<Act>, i: nat)
    requires IsRun(c, apis, run, acts) && i < |run|
    ensures forall id :: run[i].mgr.pool.offered[id] <= 1
    ensures forall id :: id in run[i].mgr.pool.offered ==> 1 <= id < run[i].db.nextId
    ensures forall v, w :: 0 <= v < w < |run[i].mgr.pool.workers| && run[i].mgr.pool.workers[v].matchId != 0 ==>
              run[i].mgr.pool.workers[v].matchId != run[i].mgr.pool.workers[w].matchId
    ensures forall w :: 0 <= w < |run[i].mgr.pool.workers| ==>
              && (run[i].mgr.pool.workers[w].matchId != 0 <==> run[i].mgr.pool.workers[w].state == Occupied)
              && run[i].mgr.pool.workers[w].matchId < run[i].db.nextId
  {
    RunInv(c, apis, run, acts, i);
    var p := run[i].mgr.pool;
    forall w | 0 <= w < |p.workers|
      ensures p.workers[w].matchId != 0 <==> p.workers[w].state == Occupied
      ensures p.workers[w].matchId < run[i].db.nextId
    {
      assert Pool.WorkerOk(p.workers[w]);
      if p.workers[w].matchId != 0 {
        Pool.RunningCounts(p.workers, w);
        assert p.taken[p.workers[w].matchId] >= 1;
        assert p.workers[w].matchId in p.offered;
      }
    }
  }

  // ----- Orphans -----

  /** Where a result for an active match is: still with its worker, in the channel, or with the saver. */
  ghost predicate Covered(m: M.Mgr, id: int) {
    || (exists w :: 0 <= w < |m.pool.workers| && m.pool.workers[w].state == Occupied && m.pool.workers[w].matchId == id)
    || M.HasId(m.chan, id)
    || ((m.saver.Removing? || m.saver.Saving?) && m.saver.res.matchId == id)
  }

  lemma SaveDueIsCovered(m: M.Mgr, id: int)
    requires Pool.Shape(m.pool) && id != 0 && SaveDue(m, id)
    ensures Covered(m, id)
  {
    if Owed(m, id) {
      var w :| 0 <= w < |m.pool.workers| && OwedBy(m, w, id);
      assert Pool.WorkerOk(m.pool.workers[w]);
    }
  }

  /**
   * No orphan matches: if the saver had not begun with a result for `id` when
   * the row of `id` was added, and its statements for `id` succeed, then while
   * the row is active its worker is occupied by it or a result for it is in the
   * channel or with the saver; and once no removal is due any more, no user
   * points at it.
   */
  lemma NoOrphans(c: Config, apis: nat, run: seq<Platform>, acts: seq<Act>, i: nat, id: int)
    requires IsRun(c, apis, run, acts) && i < |run| && run[i].mm != Starting
    requires id in run[i].db.matches && id !in run[i].premature && id !in run[i].failed
    ensures run[i].db.matches[id].active ==> Covered(run[i].mgr, id)
    ensures forall l :: l in run[i].db.users && run[i].db.users[l].matchId == Some(id) ==> RemoveDue(run[i].mgr, id)
  {
    RunInv(c, apis, run, acts, i);
    IdsAreGood(c, run[i]);
    if run[i].db.matches[id].active {
      SaveDueIsCovered(run[i].mgr, id);
    }
  }

  /**
   * Exactly when a match is orphaned: once no result is due for it, its row is
   * still active if and only if it is on the list of the stranded, that is, it
   * was added when no result was due and none was saved since. Likewise its
   * players still point at it if and only if it is on the list of the stuck.
   */
  lemma OrphanedExactlyWhen(c: Config, apis: nat, run: seq<Platform>, acts: seq<Act>, i: nat, id: int)
    requires IsRun(c, apis, run, acts) && i < |run| && run[i].mm != Starting
    requires id in run[i].db.matches && id !in run[i].failed
    ensures !SaveDue(run[i].mgr, id) ==> (run[i].db.matches[id].active <==> id in run[i].stranded)
    ensures !RemoveDue(run[i].mgr, id) ==>
              ((exists l :: l in run[i].db.users && run[i].db.users[l].matchId == Some(id)) <==> id in run[i].stuck)
  {
    RunInv(c, apis, run, acts, i);
    var p := run[i];
    if id in p.stuck {
      assert |p.configs[id].Keys| >= 2;
      var l :| l in p.configs[id];
      assert p.db.users[l].matchId == Some(id);
    }
  }

  lemma AddMatchMarks(c: Config, p: Platform)
    requires Enabled(c, p, AddMatch)
    ensures var id, q := p.mm.id, Next(c, p, AddMatch);
            && (id in q.stranded <==> id in p.stranded || !SaveDue(p.mgr, id))
            && (id in q.stuck <==> id in p.stuck || !RemoveDue(p.mgr, id))
            && (id in q.premature <==> id in p.premature || Begun(p.mgr, id))
  {
  }

  lemma NotYetListed(c: Config, p: Platform)
    requires Inv(c, p) && p.mm.Adding? && c.playersPerRoom >= 2
    ensures p.mm.id !in p.stranded && p.mm.id !in p.stuck
    ensures !RemoveDue(p.mgr, p.mm.id) ==> Begun(p.mgr, p.mm.id)
  {
    assert Carried(p.mm) == p.mm.roster.Keys;
    var l :| l in p.mm.roster.Keys;
    assert p.mm.id in p.stuck ==> StuckOk(p, p.mm.id);
    assert l in p.configs[p.mm.id] && l in p.db.users && p.db.users[l].matchId.None?;
  }

  /**
   * What AddMatch could look at before it commits: a match is put on a list
   * exactly when no result for it is due any more, and then the saver has
   * already begun with one.
   */
  lemma StrandedOnlyIfLate(c: Config, apis: nat, run: seq<Platform>, acts: seq<Act>, i: nat)
    requires IsRun(c, apis, run, acts) && i < |acts| && acts[i] == AddMatch
    ensures var id := run[i].mm.id;
            && (id in run[i + 1].stranded <==> !SaveDue(run[i].mgr, id))
            && (id in run[i + 1].stuck <==> !RemoveDue(run[i].mgr, id))
            && (id in run[i + 1].stranded || id in run[i + 1].stuck ==> id in run[i + 1].premature)
  {
    RunInv(c, apis, run, acts, i);
    AddMatchMarks(c, run[i]);
    NotYetListed(c, run[i]);
  }

  // ----- How long an orphan lasts -----

  /** The steps that take `id` off the list of the stranded: a later result is saved, or a new server manager starts. */
  predicate Unstrands(p: Platform, a: Act, id: int) {
    a == SetupRun || a == Reboot || (a == SaveRun(true) && p.mgr.saver.Saving? && p.mgr.saver.res.matchId == id)
  }

  /** One step of a run keeps `id` on the list of the stranded. */
  predicate KeepsStranded(p: Platform, q: Platform, id: int) {
    id in p.stranded && p.mm != Starting ==> id in q.stranded && q.mm != Starting
  }

  lemma StrandedStep(c: Config, p: Platform, a: Act, id: int)
    requires Enabled(c, p, a) && !Unstrands(p, a, id)
    ensures KeepsStranded(p, Next(c, p, a), id)
  {
  }

  lemma {:induction false} StrandedThroughout(run: seq<Platform>, i: nat, j: nat, id: int)
    requires i <= j < |run| && forall n :: i <= n < j ==> KeepsStranded(run[n], run[n + 1], id)
    requires id in run[i].stranded && run[i].mm != Starting
    ensures id in run[j].stranded && run[j].mm != Starting
    decreases j - i
  {
    if i < j {
      StrandedThroughout(run, i, j - 1, id);
      assert KeepsStranded(run[j - 1], run[j - 1 + 1], id);
    }
  }

  /**
   * A stranded match stays active until another result for it is saved or a
   * new server manager sets matchmaking up; nothing else ends it.
   */
  lemma StrandedUntil(c: Config, apis: nat, run: seq<Platform>, acts: seq<Act>, i: nat, j: nat, id: int)
    requires IsRun(c, apis, run, acts) && i <= j < |run|
    requires id in run[i].stranded && run[i].mm != Starting
    requires forall n :: i <= n < j ==> !Unstrands(run[n], acts[n], id)
    ensures id in run[j].stranded && id in run[j].db.matches && run[j].db.matches[id].active
  {
    forall n | i <= n < j ensures KeepsStranded(run[n], run[n + 1], id) {
      StrandedStep(c, run[n], acts[n], id);
    }
    StrandedThroughout(run, i, j, id);
    assert ListsInv(run[j]) by {
      RunInv(c, apis, run, acts, j);
    }
  }

  // ----- Matches end once -----

  /** One step of a run: a match that is over stays over. */
  predicate KeepsEnded(t: Tables, u: Tables) {
    forall id :: id in t.matches && !t.matches[id].active ==> id in u.matches && !u.matches[id].active
  }

  lemma OthersKeepEnded(p: Platform, a: Act)
    ensures KeepsEnded(p.db, OtherTables(p, a))
  {
  }

  lemma StepKeepsEnded(c: Config, p: Platform, a: Act)
    requires IdsInv(p) && Enabled(c, p, a)
    ensures KeepsEnded(p.db, Next(c, p, a).db)
  {
    if IsOther(a) {
      OtherRowsFrame(c, p, a);
      OthersKeepEnded(p, a);
    }
  }

  lemma {:induction false} EndedThroughout(run: seq<Platform>, i: nat, j: nat)
    requires i <= j < |run| && forall n :: i <= n < j ==> KeepsEnded(run[n].db, run[n + 1].db)
    ensures KeepsEnded(run[i].db, run[j].db)
    decreases j - i
  {
    if i < j {
      EndedThroughout(run, i, j - 1);
      assert KeepsEnded(run[j - 1].db, run[j - 1 + 1].db);
    }
  }

  /** In every run, across restarts of the server manager, no inactive match becomes active again. */
  lemma InactiveForGood(c: Config, apis: nat, run: seq<Platform>, acts: seq<Act>, i: nat, j: nat, id: int)
    requires IsRun(c, apis, run, acts) && i <= j < |run|
    requires id in run[i].db.matches && !run[i].db.matches[id].active
    ensures id in run[j].db.matches && !run[j].db.matches[id].active
  {
    forall n | i <= n < j ensures KeepsEnded(run[n].db, run[n + 1].db) {
      assert IdsInv(run[n]) by {
        RunInv(c, apis, run, acts, n);
      }
      StepKeepsEnded(c, run[n], acts[n]);
    }
    EndedThroughout(run, i, j);
  }

  // ----- Nothing is excluded -----

  /** In every reachable state the API's steps are enabled exactly when the code makes them. */
  lemma NoApiStepExcluded(c: Config, apis: nat, run: seq<Platform>, acts: seq<Act>, i: nat, q: Q.Act)
    requires IsRun(c, apis, run, acts) && i < |run|
    ensures Enabled(c, run[i], Api(q)) <==> Q.Possible(run[i].api, q)
  {
    assert Q.Inv(run[i].api, run[i].db) by {
      RunInv(c, apis, run, acts, i);
    }
    Q.NothingExcluded(run[i].api, run[i].db, q);
  }

  // ----- Counting -----

  /** The workers that run a match, the results in the channel, and the one in the saver's hands. */
  function PendingIds(m: M.Mgr): set<int> {
    (set w | 0 <= w < |m.pool.workers| && m.pool.workers[w].state == Occupied :: m.pool.workers[w].matchId)
    + (set k | 0 <= k < |m.chan| :: m.chan[k].matchId)
    + (if m.saver.Removing? || m.saver.Saving? then {m.saver.res.matchId} else {})
  }

  lemma {:induction false} OccupiedBound(ws: seq<Rec>)
    ensures |set w | 0 <= w < |ws| && ws[w].state == Occupied :: ws[w].matchId| <= PT.OccupiedCount(ws)
  {
    var all := set w | 0 <= w < |ws| && ws[w].state == Occupied :: ws[w].matchId;
    if ws == [] {
      assert all == {};
    } else {
      var init, last := ws[..|ws| - 1], ws[|ws| - 1];
      OccupiedBound(init);
      var before := set w | 0 <= w < |init| && init[w].state == Occupied :: init[w].matchId;
      SubsetSize(all, before + if last.state == Occupied then {last.matchId} else {});
    }
  }

  lemma {:induction false} ChanBound(s: seq<Result>)
    ensures |set k | 0 <= k < |s| :: s[k].matchId| <= |s|
  {
    var all := set k | 0 <= k < |s| :: s[k].matchId;
    if s == [] {
      assert all == {};
    } else {
      var init := s[..|s| - 1];
      ChanBound(init);
      var before := set k | 0 <= k < |init| :: init[k].matchId;
      SubsetSize(all, before + {s[|s| - 1].matchId});
    }
  }

  /** The active matches that were added in time and whose statements did not fail. */
  function ActiveInTime(p: Platform): set<int> {
    set id | id in p.db.matches && p.db.matches[id].active && id !in p.premature && id !in p.failed
  }

  /** There are never more such matches than occupied workers and pending saves. */
  lemma ActiveMatchesAreBounded(c: Config, apis: nat, run: seq<Platform>, acts: seq<Act>, i: nat)
    requires IsRun(c, apis, run, acts) && i < |run| && run[i].mm != Starting
    ensures |ActiveInTime(run[i])| <=
            PT.OccupiedCount(run[i].mgr.pool.workers) + |run[i].mgr.chan| + |M.InHand(run[i].mgr.saver)|
  {
    var p := run[i];
    forall id | id in ActiveInTime(p) ensures id in PendingIds(p.mgr) {
      NoOrphans(c, apis, run, acts, i, id);
    }
    SubsetSize(ActiveInTime(p), PendingIds(p.mgr));
    PendingBound(p.mgr);
  }

  lemma PendingBound(m: M.Mgr)
    ensures |PendingIds(m)| <= PT.OccupiedCount(m.pool.workers) + |m.chan| + |M.InHand(m.saver)|
  {
    OccupiedBound(m.pool.workers);
    ChanBound(m.chan);
  }

  // ----- Websockets -----

  /**
   * The newest websocket wins, across any number of API instances: while the
   * connection that holds a user's last websocket id is open, the user stays
   * queued, unless AddMatch or SetupMatchmaking has touched the row.
   */
  lemma NewestWebsocketWins(
    c: Config, apis: nat, run: seq<Platform>, acts: seq<Act>, i: nat, inst: nat, k: Key)
    requires IsRun(c, apis, run, acts) && i < |run| && inst < |run[i].api.instances|
    requires Q.OpenAt(run[i].api, inst, k)
    ensures k.login in run[i].db.users && k.ws <= run[i].db.users[k.login].lastWs
    ensures k.ws == run[i].db.users[k.login].lastWs && k !in run[i].api.touched ==>
              run[i].db.users[k.login].queuedUntil.Some? && run[i].db.users[k.login].matchId.None?
  {
    RunInv(c, apis, run, acts, i);
    assert Q.Alive(run[i].api, k);
    Q.AliveIsKnown(run[i].api, run[i].db, k);
  }

  /** One step of a run: users stay, and their last websocket ids do not go back. */
  predicate KeepsIds(t: Tables, u: Tables) {
    forall l :: l in t.users ==> l in u.users && t.users[l].lastWs <= u.users[l].lastWs
  }

  lemma ApiKeepsIds(t: Tables, q: Q.Act)
    ensures KeepsIds(t, Q.NextTables(t, q))
  {
  }

  lemma StepKeepsIds(c: Config, p: Platform, a: Act)
    requires Enabled(c, p, a)
    ensures KeepsIds(p.db, Next(c, p, a).db)
  {
    if a.Api? {
      ApiKeepsIds(p.db, a.api);
    } else if SparesQueue(a) {
      ApiFrame(c, p, a);
    }
  }

  lemma {:induction false} IdsKeptThroughout(run: seq<Platform>, i: nat, j: nat)
    requires i <= j < |run| && forall n :: i <= n < j ==> KeepsIds(run[n].db, run[n + 1].db)
    ensures KeepsIds(run[i].db, run[j].db)
    decreases j - i
  {
    if i < j {
      IdsKeptThroughout(run, i, j - 1);
      assert KeepsIds(run[j - 1].db, run[j - 1 + 1].db);
    }
  }

  lemma LastIdsGrow(c: Config, apis: nat, run: seq<Platform>, acts: seq<Act>, i: nat, j: nat)
    requires IsRun(c, apis, run, acts) && i <= j < |run|
    ensures KeepsIds(run[i].db, run[j].db)
  {
    forall n | i <= n < j ensures KeepsIds(run[n].db, run[n + 1].db) {
      StepKeepsIds(c, run[n], acts[n]);
    }
    IdsKeptThroughout(run, i, j);
  }

  /** Step `i` allocates websocket `k`, on any instance. */
  predicate Allocates(run: seq<Platform>, acts: seq<Act>, i: nat, k: Key)
    requires i < |acts| && |run| == |acts| + 1
  {
    && acts[i].Api? && acts[i].api.Enqueue? && acts[i].api.login == k.login
    && QueueId(run[i].db, k.login) == Some(k.ws)
  }

  /** Websocket ids of a login strictly increase in the order they are given out, on whatever instances. */
  lemma WebsocketIdsIncrease(
    c: Config, apis: nat, run: seq<Platform>, acts: seq<Act>, i: nat, j: nat, k: Key, later: Key)
    requires IsRun(c, apis, run, acts) && i < j < |acts| && k.login == later.login
    requires Allocates(run, acts, i, k) && Allocates(run, acts, j, later)
    ensures k.ws < later.ws
  {
    assert run[i + 1].db == SetQueue(run[i].db, k.login, acts[i].api.until);
    LastIdsGrow(c, apis, run, acts, i + 1, j);
  }

  /** An id that is given out is larger than those of all arrivals and connections of that login at the time. */
  lemma NewIdIsLargest(
    c: Config, apis: nat, run: seq<Platform>, acts: seq<Act>, i: nat, inst: nat, l: Login, until: Time)
    requires IsRun(c, apis, run, acts) && i < |acts| && acts[i] == Api(Q.Enqueue(inst, l, until))
    requires QueueId(run[i].db, l).Some?
    ensures var id := QueueId(run[i].db, l).value;
            && Q.Arrival(inst, Key(l, id)) in run[i + 1].api.arriving
            && (forall w :: w in run[i].api.arriving && w.key.login == l ==> w.key.ws < id)
            && (forall j, k ::
                  (0 <= j < |run[i].api.instances| && k in run[i].api.instances[j].reg.conns && k.login == l)
                  ==> k.ws < id)
  {
    assert Q.KnownInv(run[i].api, run[i].db) by {
      RunInv(c, apis, run, acts, i);
    }
    forall j, k | 0 <= j < |run[i].api.instances| && k in run[i].api.instances[j].reg.conns && k.login == l
      ensures k.ws < QueueId(run[i].db, l).value
    {
      assert Q.Known(run[i].db, k);
    }
  }

  /** Stale statements: one that takes a user off the queue never belongs to a websocket that is alive. */
  lemma RemovalsAreForTheDead(
    c: Config, apis: nat, run: seq<Platform>, acts: seq<Act>, i: nat, inst: nat, k: Key)
    requires IsRun(c, apis, run, acts) && i < |run| && inst < |run[i].api.instances|
    requires k in run[i].api.removes
    ensures !Q.OpenAt(run[i].api, inst, k)
  {
    RunInv(c, apis, run, acts, i);
    assert !Q.Alive(run[i].api, k);
  }
}

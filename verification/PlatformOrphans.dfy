/**
 * Orphans: matches whose row stays active although no result is due for them,
 * and users left in a match that is over. They arise in exactly one way: the
 * row is added after the saver is done with the result.
 */
module PlatformOrphans {
  import opened Base
  import opened Tables
  import opened Workers
  import Pool
  import M = Manager
  import Q = QueueApi
  import opened Platform

  // ----- Due results, step by step -----

  lemma OwnerKept(c: M.Config, m: M.Mgr, a: M.Act, j: nat)
    requires Pool.Shape(m.pool) && M.Enabled(c, m, a)
    requires j < |m.pool.workers| && m.pool.workers[j].matchId != 0
    requires !(a == M.Release && m.inbox.res.matchId == m.pool.workers[j].matchId)
    requires !(a.Mark? && m.health.next == j)
    ensures |M.Next(c, m, a).pool.workers| == |m.pool.workers|
    ensures M.Next(c, m, a).pool.workers[j].matchId == m.pool.workers[j].matchId
  {
    M.NextPool(c, m, a);
    if M.PoolOp(m, a).Some? {
      Pool.MatchKept(m.pool, M.PoolOp(m, a).value, j, c.limits);
    }
  }

  lemma InboxFlagKept(c: M.Config, m: M.Mgr, a: M.Act, id: int)
    requires M.Enabled(c, m, a) && !(m.inbox.Pushed? && m.inbox.res.matchId == id)
    requires a != M.Push || m.inbox.res.matchId != id
    ensures var n := M.Next(c, m, a); !(n.inbox.Pushed? && n.inbox.res.matchId == id)
  {
  }

  lemma HealthFlagKept(c: M.Config, m: M.Mgr, a: M.Act, j: nat)
    requires M.Enabled(c, m, a) && !(m.health.Marking? && m.health.next == j)
    requires j < |m.pool.workers| && m.pool.workers[j].state == Occupied
    requires a != M.CancelPush || m.health.next != j
    ensures var n := M.Next(c, m, a); !(n.health.Marking? && n.health.next == j)
  {
    if a.Visit? {
      Pool.PongFrame(m.pool, m.health.next, m.health.next in m.health.pongs, c.limits);
    }
  }

  /** The flags of `OwedBy` change only with a send. */
  lemma FlagsKept(c: M.Config, m: M.Mgr, a: M.Act, j: nat, id: int)
    requires M.MutexInv(m) && Pool.Shape(m.pool) && M.Enabled(c, m, a)
    requires j < |m.pool.workers| && id != 0 && OwedBy(m, j, id)
    requires a != M.Push || m.inbox.res.matchId != id
    requires a != M.CancelPush || m.health.next != j
    ensures var n := M.Next(c, m, a);
            && !(n.inbox.Pushed? && n.inbox.res.matchId == id)
            && !(n.health.Marking? && n.health.next == j)
  {
    assert Pool.WorkerOk(m.pool.workers[j]);
    InboxFlagKept(c, m, a, id);
    HealthFlagKept(c, m, a, j);
  }

  lemma OwedKept(c: M.Config, m: M.Mgr, a: M.Act, id: int)
    requires M.MutexInv(m) && Pool.Shape(m.pool) && M.Enabled(c, m, a) && id != 0 && Owed(m, id)
    ensures Owed(M.Next(c, m, a), id) || M.HasId(M.Next(c, m, a).chan, id)
  {
    var n := M.Next(c, m, a);
    var j :| 0 <= j < |m.pool.workers| && OwedBy(m, j, id);
    if a == M.Push && m.inbox.res.matchId == id {
      assert n.chan[|m.chan|].matchId == id;
    } else if a == M.CancelPush && m.health.next == j {
      assert n.chan[|m.chan|].matchId == id;
    } else {
      OwnerKept(c, m, a, j);
      FlagsKept(c, m, a, j, id);
      assert OwedBy(n, j, id);
    }
  }

  /** Only the saver takes results out of the channel. */
  lemma ChanGrows(c: M.Config, m: M.Mgr, a: M.Act)
    requires M.Enabled(c, m, a) && a != M.Receive
    ensures m.chan <= M.Next(c, m, a).chan
  {
  }

  lemma ChanKept(c: M.Config, m: M.Mgr, a: M.Act, id: int)
    requires M.Enabled(c, m, a) && M.HasId(m.chan, id)
    ensures var n := M.Next(c, m, a);
            M.HasId(n.chan, id) || (n.saver.Removing? && n.saver.res.matchId == id)
  {
    var n := M.Next(c, m, a);
    var k :| 0 <= k < |m.chan| && m.chan[k].matchId == id;
    if a == M.Receive {
      if k > 0 {
        assert n.chan[k - 1].matchId == id;
      }
    } else {
      ChanGrows(c, m, a);
      assert n.chan[k].matchId == id;
    }
  }

  /** A due removal stays due until the saver runs it, a due save until the saver has saved. */
  lemma DueKept(c: M.Config, m: M.Mgr, a: M.Act, id: int)
    requires M.MutexInv(m) && Pool.Shape(m.pool) && M.Enabled(c, m, a) && id != 0
    ensures RemoveDue(m, id) ==>
              RemoveDue(M.Next(c, m, a), id) || (a == M.Removed && m.saver.res.matchId == id)
    ensures SaveDue(m, id) ==>
              SaveDue(M.Next(c, m, a), id) || (a == M.Saved && m.saver.res.matchId == id)
  {
    if M.HasId(m.chan, id) {
      ChanKept(c, m, a, id);
    }
    if Owed(m, id) {
      OwedKept(c, m, a, id);
    }
    SaverKept(c, m, a);
  }

  lemma SaverKept(c: M.Config, m: M.Mgr, a: M.Act)
    requires M.Enabled(c, m, a)
    ensures var n := M.Next(c, m, a);
            && (m.saver.Removing? ==> if a == M.Removed then n.saver == M.Saving(m.saver.res) else n.saver == m.saver)
            && (m.saver.Saving? && a != M.Saved ==> n.saver == m.saver)
  {
  }

  // ----- The invariant -----

  ghost predicate OrphansInv(p: Platform) {
    p.mm != Starting ==>
      && (forall id :: id in p.db.matches && p.db.matches[id].active && id !in p.failed ==>
            SaveDue(p.mgr, id) || id in p.stranded)
      && (forall l :: l in p.db.users && p.db.users[l].matchId.Some? && p.db.users[l].matchId.value !in p.failed ==>
            RemoveDue(p.mgr, p.db.users[l].matchId.value) || p.db.users[l].matchId.value in p.stuck)
  }

  predicate StrandedOk(p: Platform, id: int) {
    id in p.db.matches && p.db.matches[id].active && id in p.premature
  }

  /** All players of the match still point at it. */
  predicate StuckOk(p: Platform, id: int) {
    && id in p.configs && id in p.premature
    && forall l :: l in p.configs[id] ==> l in p.db.users && p.db.users[l].matchId == Some(id)
  }

  /** What it takes to be on the lists of the stranded and the stuck. */
  ghost predicate ListsInv(p: Platform) {
    p.mm != Starting ==>
      && (forall id :: id in p.stranded ==> StrandedOk(p, id))
      && (forall id :: id in p.stuck ==> StuckOk(p, id))
  }

  /** While a match is being added, its worker still owes a result unless the saver has begun with one. */
  ghost predicate AddingInv(p: Platform) {
    p.mm.Adding? ==> RemoveDue(p.mgr, p.mm.id) || Begun(p.mgr, p.mm.id)
  }

  predicate PositiveIds(p: Platform) {
    && (forall id :: id in p.db.matches ==> id >= 1)
    && (p.mm.Adding? ==> p.mm.id >= 1)
  }

  // ----- Preservation -----

  /** No match becomes active and no user enters a match. */
  ghost predicate NothingNew(t: Tables, u: Tables) {
    && (forall id :: id in u.matches && u.matches[id].active ==> id in t.matches && t.matches[id].active)
    && (forall l :: l in u.users && u.users[l].matchId.Some? ==>
          l in t.users && t.users[l].matchId == u.users[l].matchId)
  }

  /** Everybody who is in a match stays in it, and every active match stays active. */
  ghost predicate NothingLost(t: Tables, u: Tables) {
    && (forall id :: id in t.matches && t.matches[id].active ==> id in u.matches && u.matches[id].active)
    && (forall l :: l in t.users && t.users[l].matchId.Some? ==>
          l in u.users && u.users[l].matchId == t.users[l].matchId)
  }

  lemma OrphansKept(p: Platform, q: Platform)
    requires OrphansInv(p) && (q.mm != Starting ==> p.mm != Starting)
    requires NothingNew(p.db, q.db)
    requires q.failed == p.failed && q.stranded == p.stranded && q.stuck == p.stuck
    requires forall id :: id in p.db.matches && SaveDue(p.mgr, id) ==> SaveDue(q.mgr, id)
    requires forall l :: l in p.db.users && p.db.users[l].matchId.Some?
                         && RemoveDue(p.mgr, p.db.users[l].matchId.value) ==>
               RemoveDue(q.mgr, p.db.users[l].matchId.value)
    ensures OrphansInv(q)
  {
  }

  lemma ListsKept(p: Platform, q: Platform)
    requires ListsInv(p) && (q.mm != Starting ==> p.mm != Starting)
    requires NothingLost(p.db, q.db)
    requires q.premature == p.premature && q.stranded == p.stranded && q.stuck == p.stuck
    requires forall id :: id in p.configs && id in p.stuck ==> id in q.configs && q.configs[id] == p.configs[id]
    ensures ListsInv(q)
  {
  }

  /** Match ids of users and rows are at least 1. */
  ghost predicate GoodIds(p: Platform) {
    && PositiveIds(p)
    && (forall l :: l in p.db.users && p.db.users[l].matchId.Some? ==> p.db.users[l].matchId.value >= 1)
  }

  lemma AllDueKept(c: Config, p: Platform, m: M.Act)
    requires M.MutexInv(p.mgr) && Pool.Shape(p.mgr.pool) && M.Enabled(c.manager, p.mgr, m)
    requires m != M.Removed && m != M.Saved
    ensures forall id :: id >= 1 && SaveDue(p.mgr, id) ==> SaveDue(M.Next(c.manager, p.mgr, m), id)
    ensures forall id :: id >= 1 && RemoveDue(p.mgr, id) ==> RemoveDue(M.Next(c.manager, p.mgr, m), id)
  {
    forall id | id >= 1
      ensures SaveDue(p.mgr, id) ==> SaveDue(M.Next(c.manager, p.mgr, m), id)
      ensures RemoveDue(p.mgr, id) ==> RemoveDue(M.Next(c.manager, p.mgr, m), id)
    {
      DueKept(c.manager, p.mgr, m, id);
    }
  }

  /** Steps of the manager other than the saver's statements. */
  lemma ManagerOrphans(c: Config, p: Platform, q: Platform, m: M.Act)
    requires OrphansInv(p) && ListsInv(p) && GoodIds(p)
    requires M.MutexInv(p.mgr) && Pool.Shape(p.mgr.pool) && M.Enabled(c.manager, p.mgr, m)
    requires m != M.Removed && m != M.Saved
    requires q.mgr == M.Next(c.manager, p.mgr, m) && q.db == p.db && (q.mm != Starting ==> p.mm != Starting)
    requires q.premature == p.premature && q.stranded == p.stranded && q.stuck == p.stuck && q.failed == p.failed
    requires forall id :: id in p.stuck && id in p.configs ==> id in q.configs && q.configs[id] == p.configs[id]
    ensures OrphansInv(q) && ListsInv(q)
  {
    AllDueKept(c, p, m);
    OrphansKept(p, q);
    ListsKept(p, q);
  }

  lemma RemoveRunOrphans(c: Config, p: Platform, applied: bool)
    requires OrphansInv(p) && ListsInv(p) && GoodIds(p)
    requires M.MutexInv(p.mgr) && Pool.Shape(p.mgr.pool) && Enabled(c, p, RemoveRun(applied))
    ensures OrphansInv(Next(c, p, RemoveRun(applied))) && ListsInv(Next(c, p, RemoveRun(applied)))
  {
    var q := Next(c, p, RemoveRun(applied));
    forall id | id >= 1
      ensures SaveDue(p.mgr, id) ==> SaveDue(q.mgr, id)
      ensures RemoveDue(p.mgr, id) ==> RemoveDue(q.mgr, id) || id == p.mgr.saver.res.matchId
    {
      DueKept(c.manager, p.mgr, M.Removed, id);
    }
  }

  lemma SaveRunOrphans(c: Config, p: Platform, applied: bool)
    requires OrphansInv(p) && ListsInv(p) && GoodIds(p)
    requires M.MutexInv(p.mgr) && Pool.Shape(p.mgr.pool) && Enabled(c, p, SaveRun(applied))
    ensures OrphansInv(Next(c, p, SaveRun(applied))) && ListsInv(Next(c, p, SaveRun(applied)))
  {
    var q := Next(c, p, SaveRun(applied));
    forall id | id >= 1
      ensures SaveDue(p.mgr, id) ==> SaveDue(q.mgr, id) || id == p.mgr.saver.res.matchId
      ensures RemoveDue(p.mgr, id) ==> RemoveDue(q.mgr, id)
    {
      DueKept(c.manager, p.mgr, M.Saved, id);
    }
  }

  lemma AddMatchFrame(c: Config, p: Platform)
    requires RowsInv(c, p) && Enabled(c, p, AddMatch)
    ensures var q := Next(c, p, AddMatch);
            && q.mgr == p.mgr && q.configs == p.configs && q.failed == p.failed && q.mm == Waiting
            && q.db.users.Keys == p.db.users.Keys
            && (forall l :: l in p.mm.roster ==> l in q.db.users && q.db.users[l].matchId == Some(p.mm.id))
            && (forall l :: l in p.db.users && l !in p.mm.roster ==> q.db.users[l] == p.db.users[l])
            && (forall l :: l in p.db.users && p.db.users[l].matchId.Some? ==> l !in p.mm.roster)
            && q.db.matches.Keys == p.db.matches.Keys + {p.mm.id} && q.db.matches[p.mm.id].active
            && (forall id :: id in p.db.matches ==> q.db.matches[id] == p.db.matches[id])
  {
    forall l | l in p.db.users && p.db.users[l].matchId.Some? ensures l !in p.mm.roster {
      assert l !in Carried(p.mm);
    }
  }

  lemma AddMatchOrphans(c: Config, p: Platform)
    requires OrphansInv(p) && RowsInv(c, p) && Enabled(c, p, AddMatch)
    ensures OrphansInv(Next(c, p, AddMatch))
  {
    AddMatchFrame(c, p);
  }

  lemma OthersStuck(p: Platform, q: Platform, id: int)
    requires StuckOk(p, id) && q.configs == p.configs && p.premature <= q.premature
    requires forall l :: l in p.db.users && p.db.users[l].matchId.Some? ==>
               l in q.db.users && q.db.users[l] == p.db.users[l]
    ensures StuckOk(q, id)
  {
  }

  lemma AddMatchLists(c: Config, p: Platform)
    requires ListsInv(p) && AddingInv(p) && IdsInv(p) && RowsInv(c, p) && Enabled(c, p, AddMatch)
    ensures ListsInv(Next(c, p, AddMatch))
  {
    var q := Next(c, p, AddMatch);
    AddMatchFrame(c, p);
    assert p.premature <= q.premature;
    forall id | id in q.stranded ensures StrandedOk(q, id) {
      if id != p.mm.id {
        assert StrandedOk(p, id);
      }
    }
    forall id | id in q.stuck ensures StuckOk(q, id) {
      if id != p.mm.id {
        assert StuckOk(p, id);
        OthersStuck(p, q, id);
      } else {
        assert id !in p.db.matches;
        if id in p.stuck {
          assert StuckOk(p, id);
        }
      }
    }
  }

  lemma SetupOrphans(c: Config, p: Platform)
    requires Enabled(c, p, SetupRun)
    ensures OrphansInv(Next(c, p, SetupRun)) && ListsInv(Next(c, p, SetupRun))
  {
    var u := Setup(p.db);
    assert forall id :: id in u.matches ==> !u.matches[id].active;
    assert forall l :: l in u.users ==> u.users[l].matchId.None?;
  }

  /** Steps that change neither the manager nor who is in a match. */
  lemma QuietOrphans(p: Platform, q: Platform)
    requires OrphansInv(p) && ListsInv(p) && (q.mm != Starting ==> p.mm != Starting)
    requires q.mgr == p.mgr && q.configs == p.configs
    requires NothingNew(p.db, q.db) && NothingLost(p.db, q.db)
    requires q.premature == p.premature && q.stranded == p.stranded && q.stuck == p.stuck && q.failed == p.failed
    ensures OrphansInv(q) && ListsInv(q)
  {
    OrphansKept(p, q);
    ListsKept(p, q);
  }

  // ----- The match that is being added -----

  lemma BegunGrows(c: M.Config, m: M.Mgr, a: M.Act, id: int)
    requires M.Enabled(c, m, a) && Begun(m, id)
    ensures Begun(M.Next(c, m, a), id)
  {
    var k :| 0 <= k < |m.received| && m.received[k].matchId == id;
    assert M.Next(c, m, a).received[k] == m.received[k];
  }

  lemma SentIsChanOrBegun(c: M.Config, m: M.Mgr, id: int)
    requires M.QueueInv(c, m) && M.HasId(M.Results(m.enqueued), id)
    ensures Begun(m, id) || M.HasId(m.chan, id)
  {
    var k :| 0 <= k < |m.enqueued| && M.Results(m.enqueued)[k].matchId == id;
    if k < |m.received| {
      assert m.received[k].matchId == id;
    } else {
      assert m.chan[k - |m.received|].matchId == id;
    }
  }

  lemma InHandIsBegun(c: M.Config, m: M.Mgr)
    requires M.QueueInv(c, m)
    ensures m.saver.Removing? || m.saver.Saving? ==> Begun(m, m.saver.res.matchId)
  {
    if m.saver.Removing? || m.saver.Saving? {
      assert m.received[|m.received| - 1] == m.saver.res;
    }
  }

  /** A match just assigned is owed by its worker, unless a result for it was sent before. */
  lemma AssignedOwed(c: M.Config, m: M.Mgr, id: int, i: nat, n: M.Mgr)
    requires M.FlowInv(c, m) && id >= 1
    requires i < |n.pool.workers| && n.pool.workers[i].matchId == id && !M.HealthHolds(n.health)
    requires n.inbox == m.inbox && n.chan == m.chan && n.received == m.received
    ensures RemoveDue(n, id) || Begun(n, id)
  {
    if n.inbox.Pushed? && n.inbox.res.matchId == id {
      SentIsChanOrBegun(c, m, id);
    } else {
      assert OwedBy(n, i, id);
    }
  }

  lemma AssignedFields(c: M.Config, m: M.Mgr, id: int) returns (i: nat)
    requires M.MutexInv(m) && M.Enabled(c, m, M.AssignOk(id))
    ensures var n := M.Next(c, m, M.AssignOk(id));
            && i < |n.pool.workers| && n.pool.workers[i].matchId == id && !M.HealthHolds(n.health)
            && n.inbox == m.inbox && n.chan == m.chan && n.received == m.received
  {
    i := Pool.FreeWorker(m.pool.workers).value;
  }

  lemma AssignedIsDue(c: Config, p: Platform, server: ServerInfo)
    requires M.FlowInv(c.manager, p.mgr) && Enabled(c, p, AssignMatch(server)) && p.mm.id >= 1
    ensures AddingInv(Next(c, p, AssignMatch(server)))
  {
    var i := AssignedFields(c.manager, p.mgr, p.mm.id);
    AssignedOwed(c.manager, p.mgr, p.mm.id, i, M.Next(c.manager, p.mgr, M.AssignOk(p.mm.id)));
  }

  lemma ManagerAdding(c: Config, p: Platform, q: Platform, m: M.Act)
    requires AddingInv(p) && PositiveIds(p) && M.FlowInv(c.manager, p.mgr) && Pool.Shape(p.mgr.pool)
    requires M.Enabled(c.manager, p.mgr, m) && q.mgr == M.Next(c.manager, p.mgr, m)
    requires q.mm == p.mm
    ensures AddingInv(q)
  {
    if p.mm.Adding? {
      var id := p.mm.id;
      InHandIsBegun(c.manager, p.mgr);
      if Begun(p.mgr, id) {
        BegunGrows(c.manager, p.mgr, m, id);
      } else {
        DueKept(c.manager, p.mgr, m, id);
      }
    }
  }
}

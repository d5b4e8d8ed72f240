/** What the results of matches do to the rows, in every run of the platform. */
module PlatformResults {
  import opened Base
  import opened Tables
  import Pool
  import M = Manager
  import MT = ManagerTheorems
  import Q = QueueApi
  import opened Platform
  import opened PlatformRows
  import opened PlatformInvariant

  // ----- Cancels -----

  lemma StepCancels(c: Config, p: Platform, a: Act)
    requires M.Inv(c.manager, p.mgr) && MT.CancelsOk(p.mgr) && Enabled(c, p, a)
    ensures MT.CancelsOk(Next(c, p, a).mgr)
  {
    if a != Reboot {
      ManagerAfter(c, p, a);
      if ManagerAct(p, a).Some? {
        MT.CancelsStep(c.manager, p.mgr, ManagerAct(p, a).value);
      }
    }
  }

  lemma {:induction false} RunCancels(c: Config, apis: nat, run: seq<Platform>, acts: seq<Act>, i: nat)
    requires IsRun(c, apis, run, acts) && i < |run|
    ensures MT.CancelsOk(run[i].mgr)
  {
    if i > 0 {
      RunCancels(c, apis, run, acts, i - 1);
      assert M.Inv(c.manager, run[i - 1].mgr) by {
        RunInv(c, apis, run, acts, i - 1);
      }
      StepCancels(c, run[i - 1], acts[i - 1]);
    }
  }

  /** The result in the saver's hands was sent by a health check. */
  predicate SavesCancel(m: M.Mgr) {
    m.saver.Saving? && |m.done| < |m.enqueued| && m.enqueued[|m.done|].source == M.FromHealth
  }

  /** The saver takes the results in the order in which they were sent. */
  lemma SavedIsNext(c: M.Config, m: M.Mgr)
    requires M.QueueInv(c, m) && m.saver.Saving?
    ensures |m.done| < |m.enqueued| && m.enqueued[|m.done|].res == m.saver.res
  {
    assert M.Results(m.enqueued)[|m.done|] == m.saver.res;
  }

  /** The rows `u` are `t` with the result `res` recorded for its match, if that exists. */
  ghost predicate RecordsOnly(t: Tables, res: Result, u: Tables) {
    && u.users == t.users && u.history == t.history && u.nextId == t.nextId
    && u.matches.Keys == t.matches.Keys
    && (forall id :: id in t.matches && id != res.matchId ==> u.matches[id] == t.matches[id])
    && (res.matchId in t.matches ==>
          u.matches[res.matchId] ==
          MatchRow(t.matches[res.matchId].server, false, !res.success, Some(res.details)))
  }

  lemma SaveWrites(c: Config, p: Platform)
    requires Enabled(c, p, SaveRun(true))
    ensures p.mgr.saver.Saving? && RecordsOnly(p.db, p.mgr.saver.res, Next(c, p, SaveRun(true)).db)
  {
  }

  /**
   * Saving a result ends its match with what the result says: inactive, its
   * details, and canceled if and only if it failed. No other row changes.
   */
  lemma SavedAsReported(c: Config, apis: nat, run: seq<Platform>, acts: seq<Act>, i: nat)
    requires IsRun(c, apis, run, acts) && i < |acts| && acts[i] == SaveRun(true)
    ensures |run[i].mgr.done| < |run[i].mgr.enqueued|
    ensures RecordsOnly(run[i].db, run[i].mgr.enqueued[|run[i].mgr.done|].res, run[i + 1].db)
  {
    SaveWrites(c, run[i]);
    assert M.QueueInv(c.manager, run[i].mgr) by {
      RunInv(c, apis, run, acts, i);
    }
    SavedIsNext(c.manager, run[i].mgr);
  }

  /**
   * A match that a health check gave up on is never recorded as played: saving
   * its cancel leaves an existing match inactive, canceled and without results.
   */
  lemma CancelsAreSavedAsCanceled(c: Config, apis: nat, run: seq<Platform>, acts: seq<Act>, i: nat)
    requires IsRun(c, apis, run, acts) && i < |acts| && acts[i] == SaveRun(true)
    requires SavesCancel(run[i].mgr)
    ensures var id := run[i].mgr.saver.res.matchId;
            && id in run[i].mgr.pool.taken
            && (id in run[i].db.matches ==>
                  && id in run[i + 1].db.matches
                  && !run[i + 1].db.matches[id].active && run[i + 1].db.matches[id].canceled
                  && run[i + 1].db.matches[id].results == Some("{}"))
  {
    assert M.QueueInv(c.manager, run[i].mgr) by {
      RunInv(c, apis, run, acts, i);
    }
    SavedIsNext(c.manager, run[i].mgr);
    RunCancels(c, apis, run, acts, i);
    assert MT.IsCancel(run[i].mgr, run[i].mgr.enqueued[|run[i].mgr.done|].res);
    SaveWrites(c, run[i]);
  }

  // ----- Match statuses -----

  /**
   * Removing the status of a match clears exactly the users of that match: they
   * are in no match, off the queue and without a token, with their last
   * websocket id as it was. Nothing else changes.
   */
  lemma StatusIsRemoved(c: Config, apis: nat, run: seq<Platform>, acts: seq<Act>, i: nat, l: Login)
    requires IsRun(c, apis, run, acts) && i < |acts| && acts[i] == RemoveRun(true)
    requires l in run[i].db.users
    ensures run[i].mgr.saver.Removing? && run[i + 1].db.users.Keys == run[i].db.users.Keys
    ensures run[i + 1].db.matches == run[i].db.matches && run[i + 1].db.history == run[i].db.history
    ensures run[i + 1].db.users[l] ==
            if run[i].db.users[l].matchId == Some(run[i].mgr.saver.res.matchId)
            then UserRow(None, None, None, run[i].db.users[l].lastWs)
            else run[i].db.users[l]
  {
  }

  // ----- Finished matches -----

  /** The step saves a result for match `id`. */
  predicate SavesFor(p: Platform, a: Act, id: int) {
    a == SaveRun(true) && p.mgr.saver.Saving? && p.mgr.saver.res.matchId == id
  }

  /** One step of a run leaves the row of a match alone once it is over. */
  predicate KeepsFinished(p: Platform, a: Act, q: Platform, id: int) {
    id in p.db.matches && !p.db.matches[id].active && !SavesFor(p, a, id) ==>
      id in q.db.matches && q.db.matches[id] == p.db.matches[id]
  }

  lemma OthersKeepFinished(p: Platform, a: Act, id: int)
    requires id in p.db.matches && !SavesFor(p, a, id)
    ensures id in OtherTables(p, a).matches && OtherTables(p, a).matches[id] == p.db.matches[id]
  {
  }

  lemma StepKeepsFinished(c: Config, p: Platform, a: Act, id: int)
    requires IdsInv(p) && Enabled(c, p, a)
    ensures KeepsFinished(p, a, Next(c, p, a), id)
  {
    if id in p.db.matches && !SavesFor(p, a, id) && IsOther(a) {
      OtherRowsFrame(c, p, a);
      OthersKeepFinished(p, a, id);
    }
  }

  lemma {:induction false} FinishedThroughout(run: seq<Platform>, acts: seq<Act>, i: nat, j: nat, id: int)
    requires i <= j <= |acts| && |run| == |acts| + 1
    requires forall n :: i <= n < j ==> KeepsFinished(run[n], acts[n], run[n + 1], id) && !SavesFor(run[n], acts[n], id)
    requires id in run[i].db.matches && !run[i].db.matches[id].active
    ensures id in run[j].db.matches && run[j].db.matches[id] == run[i].db.matches[id]
    decreases j - i
  {
    if i < j {
      FinishedThroughout(run, acts, i, j - 1, id);
      assert KeepsFinished(run[j - 1], acts[j - 1], run[j - 1 + 1], id);
    }
  }

  /**
   * What is recorded of a finished match lasts: its row stays exactly as it is
   * until another result for that very match is saved, even across restarts of
   * the server manager, which set matchmaking up anew.
   */
  lemma FinishedRowsLast(c: Config, apis: nat, run: seq<Platform>, acts: seq<Act>, i: nat, j: nat, id: int)
    requires IsRun(c, apis, run, acts) && i <= j < |run|
    requires id in run[i].db.matches && !run[i].db.matches[id].active
    requires forall n :: i <= n < j ==> !SavesFor(run[n], acts[n], id)
    ensures id in run[j].db.matches && run[j].db.matches[id] == run[i].db.matches[id]
  {
    forall n | i <= n < j ensures KeepsFinished(run[n], acts[n], run[n + 1], id) {
      assert IdsInv(run[n]) by {
        RunInv(c, apis, run, acts, n);
      }
      StepKeepsFinished(c, run[n], acts[n], id);
    }
    FinishedThroughout(run, acts, i, j, id);
  }

  /**
   * Setting matchmaking up ends exactly the matches that were active, with no
   * results and as canceled, and takes every user out of its match and off the
   * queue; websocket ids, addresses and the history stay.
   */
  lemma SetupEndsTheActive(c: Config, apis: nat, run: seq<Platform>, acts: seq<Act>, i: nat)
    requires IsRun(c, apis, run, acts) && i < |acts| && acts[i] == SetupRun
    ensures var t, u := run[i].db, run[i + 1].db;
            && u.matches.Keys == t.matches.Keys && u.users.Keys == t.users.Keys
            && u.history == t.history && u.nextId == t.nextId
            && (forall id :: id in t.matches ==>
                  u.matches[id] == if t.matches[id].active
                                   then MatchRow(t.matches[id].server, false, true, Some("{}"))
                                   else t.matches[id])
            && (forall l :: l in t.users ==> u.users[l] == UserRow(None, None, None, t.users[l].lastWs))
  {
  }
}

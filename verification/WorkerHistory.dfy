/**
 * The history of one worker in a run of the manager, read off the manager's
 * steps: it is a genuine log of the failure detector, so what is proved of such
 * logs holds in every run.
 */
module WorkerHistory {
  import opened Base
  import opened Workers
  import Pool
  import M = Manager
  import MT = ManagerTheorems
  import F = FailureDetector

  /** `visited` is when a check found the worker unhealthy, until it has marked it. */
  datatype Track = Track(log: seq<F.Entry>, visited: Option<Time>)

  /** What a step, from state `m` to state `n`, adds to the history of worker `w`. */
  function Observed(m: M.Mgr, a: M.Act, n: M.Mgr, w: nat, t: Track): Track {
    match a
    case Visit(now) =>
      if !m.health.Visiting? || m.health.next != w then t
      else if n.health.Visiting? then t.(log := t.log + [F.Entry(F.Check(w in m.health.pongs, now, now), false)])
      else t.(visited := Some(now))
    case Mark(now) =>
      if !m.health.Marking? || m.health.next != w || t.visited.None? then t
      else Track(t.log + [F.Entry(F.Check(w in m.health.pongs, t.visited.value, now), true)], None)
    case AssignOk(id) =>
      if Pool.FreeWorker(m.pool.workers) == Some(w) then t.(log := t.log + [F.Entry(F.Assign(id), false)]) else t
    case Release =>
      if m.inbox.Pushed? && Pool.Holder(m.pool.workers, m.inbox.res.matchId) == Some(w)
      then t.(log := t.log + [F.Entry(F.Finish, false)]) else t
    case RestartDone(k) =>
      if k < |m.pool.tickets| && m.pool.tickets[k].worker == w && w < |m.pool.workers|
         && m.pool.workers[w].stateId == m.pool.tickets[k].id
      then t.(log := t.log + [F.Entry(F.RestartDone, false)]) else t
    case _ => t
  }

  /** The history of worker `w` up to state `n` of a run. */
  function History(run: seq<M.Mgr>, acts: seq<M.Act>, w: nat, n: nat): Track
    requires n <= |acts| && |run| == |acts| + 1
  {
    if n == 0 then Track([], None)
    else Observed(run[n - 1], acts[n - 1], run[n], w, History(run, acts, w, n - 1))
  }

  /** The clock does not run backwards between a check's two readings of it. */
  ghost predicate ClockRuns(acts: seq<M.Act>) {
    forall i, j :: 0 <= i < j < |acts| && acts[i].Visit? && acts[j].Mark? ==> acts[i].now <= acts[j].now
  }

  predicate UnderCheck(m: M.Mgr, w: nat) {
    (m.health.Canceling? || m.health.Marking?) && m.health.next == w
  }

  /** The record is what the history makes it, with the miss of a check under way on top. */
  predicate Agrees(m: M.Mgr, w: nat, t: Track, limits: Limits) {
    && w < |m.pool.workers|
    && F.Genuine(t.log, limits)
    && (t.visited.Some? <==> UnderCheck(m, w))
    && var rec := F.After(t.log, limits);
       if t.visited.None? then m.pool.workers[w] == rec
       else
         && m.pool.workers[w] == Ponged(rec, w in m.health.pongs)
         && !Healthy(m.pool.workers[w], t.visited.value, limits)
  }

  lemma LogPlus(log: seq<F.Entry>, e: F.Entry, limits: Limits)
    requires F.Genuine(log, limits) && F.Allowed(F.After(log, limits), e.event)
    requires e.restarted == F.Restarts(F.After(log, limits), e.event, limits)
    ensures F.Genuine(log + [e], limits)
    ensures F.After(log + [e], limits) == F.Apply(F.After(log, limits), e.event, limits)
  {
    assert (log + [e])[..|log|] == log;
  }

  // ----- The steps that concern a worker -----

  lemma VisitAgrees(c: M.Config, m: M.Mgr, now: Time, w: nat, t: Track)
    requires M.Enabled(c, m, M.Visit(now)) && Agrees(m, w, t, c.limits)
    ensures var n := M.Next(c, m, M.Visit(now)); Agrees(n, w, Observed(m, M.Visit(now), n, w, t), c.limits)
  {
    if m.health.next == w && M.Next(c, m, M.Visit(now)).health.Visiting? {
      LogPlus(t.log, F.Entry(F.Check(w in m.health.pongs, now, now), false), c.limits);
    }
  }

  lemma MarkAgrees(c: M.Config, m: M.Mgr, now: Time, w: nat, t: Track)
    requires M.Enabled(c, m, M.Mark(now)) && Agrees(m, w, t, c.limits)
    requires t.visited.Some? ==> t.visited.value <= now
    ensures var n := M.Next(c, m, M.Mark(now)); Agrees(n, w, Observed(m, M.Mark(now), n, w, t), c.limits)
  {
    var n := M.Next(c, m, M.Mark(now));
    assert n.health == M.Visiting(m.health.pongs, m.health.next + 1);
    if m.health.next == w {
      LogPlus(t.log, F.Entry(F.Check(w in m.health.pongs, t.visited.value, now), true), c.limits);
      assert n.pool.workers[w] == Marked(m.pool.workers[w], now, c.limits);
    } else {
      assert n.pool.workers[w] == m.pool.workers[w];
    }
  }

  lemma AssignAgrees(c: M.Config, m: M.Mgr, id: int, w: nat, t: Track)
    requires M.MutexInv(m) && M.Enabled(c, m, M.AssignOk(id)) && id >= 1 && Agrees(m, w, t, c.limits)
    ensures var n := M.Next(c, m, M.AssignOk(id)); Agrees(n, w, Observed(m, M.AssignOk(id), n, w, t), c.limits)
  {
    if Pool.FreeWorker(m.pool.workers) == Some(w) {
      LogPlus(t.log, F.Entry(F.Assign(id), false), c.limits);
    }
  }

  lemma ReleaseAgrees(c: M.Config, m: M.Mgr, w: nat, t: Track)
    requires M.MutexInv(m) && M.InboxNamesMatch(m) && Pool.Shape(m.pool)
    requires M.Enabled(c, m, M.Release) && Agrees(m, w, t, c.limits)
    ensures var n := M.Next(c, m, M.Release); Agrees(n, w, Observed(m, M.Release, n, w, t), c.limits)
  {
    var n := M.InboxStep(c, m, M.Release);
    assert n.health == m.health;
    assert t.visited.None?;
    if Pool.Holder(m.pool.workers, m.inbox.res.matchId) == Some(w) {
      assert Pool.WorkerOk(m.pool.workers[w]);
      LogPlus(t.log, F.Entry(F.Finish, false), c.limits);
      assert n.pool.workers[w] == Freed(m.pool.workers[w]);
    } else {
      assert n.pool.workers[w] == m.pool.workers[w];
    }
  }

  lemma RestartAgrees(c: M.Config, m: M.Mgr, k: nat, w: nat, t: Track)
    requires M.MutexInv(m) && Pool.Shape(m.pool)
    requires M.Enabled(c, m, M.RestartDone(k)) && Agrees(m, w, t, c.limits)
    ensures var n := M.Next(c, m, M.RestartDone(k)); Agrees(n, w, Observed(m, M.RestartDone(k), n, w, t), c.limits)
  {
    if m.pool.tickets[k].worker == w && m.pool.workers[w].stateId == m.pool.tickets[k].id {
      LogPlus(t.log, F.Entry(F.RestartDone, false), c.limits);
    }
  }

  /** The steps that change a worker's record. */
  predicate Concerns(a: M.Act) {
    a.Visit? || a.Mark? || a.AssignOk? || a.Release? || a.RestartDone?
  }

  lemma OthersKeepWorkers(c: M.Config, m: M.Mgr, a: M.Act)
    requires M.Enabled(c, m, a) && !Concerns(a)
    ensures M.Next(c, m, a).pool.workers == m.pool.workers
  {
  }

  lemma OthersKeepCheck(c: M.Config, m: M.Mgr, a: M.Act, w: nat)
    requires M.Enabled(c, m, a) && !Concerns(a)
    ensures UnderCheck(M.Next(c, m, a), w) == UnderCheck(m, w)
    ensures UnderCheck(m, w) ==> M.Next(c, m, a).health.pongs == m.health.pongs
  {
  }

  lemma OtherAgrees(c: M.Config, m: M.Mgr, a: M.Act, w: nat, t: Track)
    requires M.Enabled(c, m, a) && !Concerns(a) && Agrees(m, w, t, c.limits)
    ensures Agrees(M.Next(c, m, a), w, t, c.limits)
  {
    OthersKeepWorkers(c, m, a);
    OthersKeepCheck(c, m, a, w);
  }

  lemma StepAgrees(c: M.Config, m: M.Mgr, a: M.Act, w: nat, t: Track)
    requires M.Inv(c, m) && M.Enabled(c, m, a) && M.Proper(m, a) && Agrees(m, w, t, c.limits)
    requires a.Mark? && t.visited.Some? ==> t.visited.value <= a.now
    ensures Agrees(M.Next(c, m, a), w, Observed(m, a, M.Next(c, m, a), w, t), c.limits)
  {
    if a.Visit? {
      VisitAgrees(c, m, a.now, w, t);
    } else if a.Mark? {
      MarkAgrees(c, m, a.now, w, t);
    } else if a.AssignOk? {
      AssignAgrees(c, m, a.matchId, w, t);
    } else if a.Release? {
      ReleaseAgrees(c, m, w, t);
    } else if a.RestartDone? {
      RestartAgrees(c, m, a.ticket, w, t);
    } else {
      OtherAgrees(c, m, a, w, t);
    }
  }

  // ----- Runs -----

  /** A pending visit was made by an earlier step of the run. */
  ghost predicate VisitedBefore(acts: seq<M.Act>, n: nat, t: Track)
    requires n <= |acts|
  {
    t.visited.Some? ==> exists i :: 0 <= i < n && acts[i] == M.Visit(t.visited.value)
  }

  lemma {:induction false} HistoryVisits(run: seq<M.Mgr>, acts: seq<M.Act>, w: nat, n: nat)
    requires n <= |acts| && |run| == |acts| + 1
    ensures VisitedBefore(acts, n, History(run, acts, w, n))
  {
    if n > 0 {
      HistoryVisits(run, acts, w, n - 1);
      var t := History(run, acts, w, n);
      if t.visited.Some? && acts[n - 1] != M.Visit(t.visited.value) {
        var i :| 0 <= i < n - 1 && acts[i] == M.Visit(t.visited.value);
      }
    }
  }

  /**
   * In every run of the manager the history of each worker is a genuine log,
   * and between checks the worker's record is exactly what that log makes it.
   */
  lemma {:induction false} HistoryIsGenuine(
    c: M.Config, count: nat, offered: multiset<int>, run: seq<M.Mgr>, acts: seq<M.Act>, w: nat, n: nat)
    requires MT.IsRun(c, count, offered, run, acts) && ClockRuns(acts) && w < count && n <= |acts|
    ensures Agrees(run[n], w, History(run, acts, w, n), c.limits)
  {
    if n > 0 {
      var t := History(run, acts, w, n - 1);
      HistoryIsGenuine(c, count, offered, run, acts, w, n - 1);
      MT.RunInv(c, count, offered, run, acts, n - 1);
      HistoryVisits(run, acts, w, n - 1);
      if acts[n - 1].Mark? && t.visited.Some? {
        var i :| 0 <= i < n - 1 && acts[i] == M.Visit(t.visited.value);
      }
      StepAgrees(c, run[n - 1], acts[n - 1], w, t);
    }
  }

  /**
   * Exact failure detection in every run: when a health check comes to a
   * worker, it goes on to restart it if and only if the worker's history calls
   * for it: it is the (maxPingRetries+1)-th miss in a row since the last state
   * change, or the deadline of the restart under way has been reached.
   */
  lemma ChecksRestartExactlyWhen(
    c: M.Config, count: nat, offered: multiset<int>, run: seq<M.Mgr>, acts: seq<M.Act>, w: nat, n: nat)
    requires MT.IsRun(c, count, offered, run, acts) && ClockRuns(acts) && w < count && n < |acts|
    requires acts[n].Visit? && run[n].health.next == w
    ensures UnderCheck(run[n + 1], w) <==>
            F.CallsForRestart(History(run, acts, w, n).log, w in run[n].health.pongs, acts[n].now, c.limits)
  {
    HistoryIsGenuine(c, count, offered, run, acts, w, n);
    F.RecordDecides(History(run, acts, w, n).log, w in run[n].health.pongs, acts[n].now, c.limits);
    VisitDecides(c, run[n], acts[n].now);
  }

  lemma VisitDecides(c: M.Config, m: M.Mgr, now: Time)
    requires M.Enabled(c, m, M.Visit(now))
    ensures UnderCheck(M.Next(c, m, M.Visit(now)), m.health.next) <==>
            !Healthy(Ponged(m.pool.workers[m.health.next], m.health.next in m.health.pongs), now, c.limits)
  {
  }

  /** Between checks the failure count is the number of misses the history ends in, and never too many. */
  lemma FailCountIsExact(
    c: M.Config, count: nat, offered: multiset<int>, run: seq<M.Mgr>, acts: seq<M.Act>, w: nat, n: nat)
    requires MT.IsRun(c, count, offered, run, acts) && ClockRuns(acts) && w < count && n <= |acts|
    ensures w < |run[n].pool.workers|
    ensures var log, rec := History(run, acts, w, n).log, run[n].pool.workers[w];
            !UnderCheck(run[n], w) ==>
              && (rec.state == Restarting <==> F.IsDown(log))
              && (!F.IsDown(log) ==> rec.failCount == F.TrailingMisses(log) <= c.limits.maxPingRetries)
  {
    HistoryIsGenuine(c, count, offered, run, acts, w, n);
    F.RecordMatchesHistory(History(run, acts, w, n).log, c.limits);
  }
}

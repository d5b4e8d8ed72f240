/** Joining and leaving the queue, in every run of the platform. */
module PlatformQueue {
  import opened Base
  import opened Tables
  import Q = QueueApi
  import QT = QueueTheorems
  import opened Platform
  import opened PlatformRows
  import opened PlatformInvariant

  // ----- Off the queue -----

  predicate OffQueue(t: Tables, l: Login) {
    l in t.users && t.users[l].queuedUntil.None?
  }

  /** The step queues `l`. */
  predicate Queues(p: Platform, a: Act, l: Login) {
    a.Api? && a.api.Enqueue? && a.api.login == l && l in p.db.users && p.db.users[l].matchId.None?
  }

  /** One step of a run: only a queueing puts a user back on the queue. */
  predicate KeepsOff(p: Platform, a: Act, q: Platform, l: Login) {
    OffQueue(p.db, l) && !Queues(p, a, l) ==> OffQueue(q.db, l)
  }

  lemma OthersKeepOff(p: Platform, a: Act, l: Login)
    requires OffQueue(p.db, l) && !Queues(p, a, l)
    ensures OffQueue(OtherTables(p, a), l)
  {
  }

  lemma StepKeepsOff(c: Config, p: Platform, a: Act, l: Login)
    requires Enabled(c, p, a)
    ensures KeepsOff(p, a, Next(c, p, a), l)
  {
    if OffQueue(p.db, l) && !Queues(p, a, l) && IsOther(a) {
      OtherRowsFrame(c, p, a);
      OthersKeepOff(p, a, l);
    }
  }

  lemma {:induction false} OffThroughout(run: seq<Platform>, acts: seq<Act>, i: nat, j: nat, l: Login)
    requires i <= j <= |acts| && |run| == |acts| + 1 && OffQueue(run[i].db, l)
    requires forall n :: i <= n < j ==> KeepsOff(run[n], acts[n], run[n + 1], l) && !Queues(run[n], acts[n], l)
    ensures OffQueue(run[j].db, l)
    decreases j - i
  {
    if i < j {
      OffThroughout(run, acts, i, j - 1, l);
      assert KeepsOff(run[j - 1], acts[j - 1], run[j - 1 + 1], l);
    }
  }

  /** A removal for the newest websocket: an unmatched user leaves the queue, and one in a match is off it anyway. */
  lemma RemovalTakesOff(c: Config, p: Platform, k: Key)
    requires Inv(c, p) && Enabled(c, p, Api(Q.RemoveRun(k))) && QT.IsNewest(p.db, k)
    ensures OffQueue(Next(c, p, Api(Q.RemoveRun(k))).db, k.login)
  {
  }

  /**
   * Leaving the queue takes effect and lasts: from the moment the removal for a
   * user's newest websocket runs, the user cannot be gathered at any time, until
   * it is queued again, whatever extensions, saves and restarts come in between.
   */
  lemma RemovedUntilQueuedAgain(
    c: Config, apis: nat, run: seq<Platform>, acts: seq<Act>, i: nat, j: nat, k: Key, now: Time)
    requires IsRun(c, apis, run, acts) && i < j < |run|
    requires acts[i] == Api(Q.RemoveRun(k)) && QT.IsNewest(run[i].db, k)
    requires forall n :: i < n < j ==> !Queues(run[n], acts[n], k.login)
    ensures k.login in run[j].db.users && run[j].db.users[k.login].queuedUntil.None?
    ensures !Gatherable(run[j].db.users[k.login], now)
  {
    RunInv(c, apis, run, acts, i);
    RemovalTakesOff(c, run[i], k);
    forall n | i < n < j ensures KeepsOff(run[n], acts[n], run[n + 1], k.login) {
      StepKeepsOff(c, run[n], acts[n], k.login);
    }
    OffThroughout(run, acts, i + 1, j, k.login);
  }

  /**
   * What a removal changes: the queue deadline of the websocket's user, if the
   * websocket is the newest and the user is in no match, and nothing else.
   */
  lemma RemovalIsExact(c: Config, apis: nat, run: seq<Platform>, acts: seq<Act>, i: nat, k: Key)
    requires IsRun(c, apis, run, acts) && i < |acts| && acts[i] == Api(Q.RemoveRun(k))
    ensures k.login in run[i].db.users
    ensures var row := run[i].db.users[k.login];
            run[i + 1].db ==
            if row.lastWs == k.ws && row.matchId.None?
            then run[i].db.(users := run[i].db.users[k.login := row.(queuedUntil := None)])
            else run[i].db
  {
    assert Q.KnownInv(run[i].api, run[i].db) by {
      RunInv(c, apis, run, acts, i);
    }
    assert Q.Known(run[i].db, k);
  }

  // ----- Disconnecting -----

  lemma ApiOfOthers(c: Config, p: Platform, a: Act)
    requires Enabled(c, p, a) && !a.Api?
    ensures Next(c, p, a).api.instances == p.api.instances && Next(c, p, a).api.removes == p.api.removes
  {
  }

  /**
   * A player whose connection closes leaves the queue: if in some step the
   * connection of its newest websocket closes, however that happens, then a
   * removal for that websocket is on its way.
   */
  lemma NewestCloseIsFollowedUp(
    c: Config, apis: nat, run: seq<Platform>, acts: seq<Act>, i: nat, inst: nat, k: Key)
    requires IsRun(c, apis, run, acts) && i < |acts| && inst < |run[i].api.instances|
    requires Q.OpenAt(run[i].api, inst, k) && QT.IsNewest(run[i].db, k)
    ensures inst < |run[i + 1].api.instances|
    ensures Q.OpenAt(run[i + 1].api, inst, k) || k in run[i + 1].api.removes
  {
    assert Q.Inv(run[i].api, run[i].db) by {
      RunInv(c, apis, run, acts, i);
    }
    if acts[i].Api? {
      QT.NewestCloseIsFollowedUp(run[i].api, run[i].db, acts[i].api, inst, k);
    } else {
      ApiOfOthers(c, run[i], acts[i]);
    }
  }

  /** One step of a run: a removal stays on its way until it runs or is lost. */
  predicate KeepsRemoval(p: Platform, a: Act, q: Platform, k: Key) {
    k in p.api.removes && a != Api(Q.RemoveRun(k)) && a != Api(Q.RemoveLost(k)) ==> k in q.api.removes
  }

  lemma StepKeepsRemoval(c: Config, p: Platform, a: Act, k: Key)
    requires Enabled(c, p, a)
    ensures KeepsRemoval(p, a, Next(c, p, a), k)
  {
    if !a.Api? {
      ApiOfOthers(c, p, a);
    }
  }

  lemma {:induction false} RemovalThroughout(run: seq<Platform>, acts: seq<Act>, i: nat, j: nat, k: Key)
    requires i <= j <= |acts| && |run| == |acts| + 1 && k in run[i].api.removes
    requires forall n :: i <= n < j ==> KeepsRemoval(run[n], acts[n], run[n + 1], k)
    requires forall n :: i <= n < j ==> acts[n] != Api(Q.RemoveRun(k)) && acts[n] != Api(Q.RemoveLost(k))
    ensures k in run[j].api.removes
    decreases j - i
  {
    if i < j {
      RemovalThroughout(run, acts, i, j - 1, k);
      assert KeepsRemoval(run[j - 1], acts[j - 1], run[j - 1 + 1], k);
    }
  }

  /** A removal on its way is not forgotten: it waits until it runs or is lost. */
  lemma RemovalsWait(c: Config, apis: nat, run: seq<Platform>, acts: seq<Act>, i: nat, j: nat, k: Key)
    requires IsRun(c, apis, run, acts) && i <= j < |run| && k in run[i].api.removes
    requires forall n :: i <= n < j ==> acts[n] != Api(Q.RemoveRun(k)) && acts[n] != Api(Q.RemoveLost(k))
    ensures k in run[j].api.removes
  {
    forall n | i <= n < j ensures KeepsRemoval(run[n], acts[n], run[n + 1], k) {
      StepKeepsRemoval(c, run[n], acts[n], k);
    }
    RemovalThroughout(run, acts, i, j, k);
  }

  /**
   * End to end: a player disconnects in step `i`, no removal of its is lost, and
   * it does not come back. Then at any later moment either the removal is still
   * on its way or the player cannot be gathered any more.
   */
  lemma DisconnectedPlayersLeave(
    c: Config, apis: nat, run: seq<Platform>, acts: seq<Act>, i: nat, j: nat, inst: nat, k: Key, now: Time)
    requires IsRun(c, apis, run, acts) && i < j < |run| && inst < |run[i].api.instances|
    requires Q.OpenAt(run[i].api, inst, k) && QT.IsNewest(run[i].db, k)
    requires inst < |run[i + 1].api.instances| && !Q.OpenAt(run[i + 1].api, inst, k)
    requires forall n :: i <= n < j ==> acts[n] != Api(Q.RemoveLost(k)) && !Queues(run[n], acts[n], k.login)
    ensures k in run[j].api.removes || (k.login in run[j].db.users && !Gatherable(run[j].db.users[k.login], now))
  {
    NewestCloseIsFollowedUp(c, apis, run, acts, i, inst, k);
    if k !in run[j].api.removes {
      if forall n :: i + 1 <= n < j ==> acts[n] != Api(Q.RemoveRun(k)) {
        RemovalsWait(c, apis, run, acts, i + 1, j, k);
      } else {
        var n :| i + 1 <= n < j && acts[n] == Api(Q.RemoveRun(k));
        StaysNewest(c, apis, run, acts, i, n, k);
        RemovedUntilQueuedAgain(c, apis, run, acts, n, j, k, now);
      }
    }
  }

  /** One step of a run: only a queueing of the user gives it a newer websocket. */
  predicate KeepsNewest(p: Platform, a: Act, q: Platform, k: Key) {
    QT.IsNewest(p.db, k) && !Queues(p, a, k.login) ==> QT.IsNewest(q.db, k)
  }

  lemma StepKeepsNewest(c: Config, p: Platform, a: Act, k: Key)
    requires Enabled(c, p, a)
    ensures KeepsNewest(p, a, Next(c, p, a), k)
  {
    if !a.Api? && SparesQueue(a) {
      ApiFrame(c, p, a);
    }
  }

  lemma {:induction false} NewestThroughout(run: seq<Platform>, acts: seq<Act>, i: nat, j: nat, k: Key)
    requires i <= j <= |acts| && |run| == |acts| + 1 && QT.IsNewest(run[i].db, k)
    requires forall n :: i <= n < j ==>
               KeepsNewest(run[n], acts[n], run[n + 1], k) && !Queues(run[n], acts[n], k.login)
    ensures QT.IsNewest(run[j].db, k)
    decreases j - i
  {
    if i < j {
      NewestThroughout(run, acts, i, j - 1, k);
      assert KeepsNewest(run[j - 1], acts[j - 1], run[j - 1 + 1], k);
    }
  }

  lemma StaysNewest(c: Config, apis: nat, run: seq<Platform>, acts: seq<Act>, i: nat, j: nat, k: Key)
    requires IsRun(c, apis, run, acts) && i <= j < |run| && QT.IsNewest(run[i].db, k)
    requires forall n :: i <= n < j ==> !Queues(run[n], acts[n], k.login)
    ensures QT.IsNewest(run[j].db, k)
  {
    forall n | i <= n < j ensures KeepsNewest(run[n], acts[n], run[n + 1], k) {
      StepKeepsNewest(c, run[n], acts[n], k);
    }
    NewestThroughout(run, acts, i, j, k);
  }

  // ----- Connecting -----

  /**
   * A player who connects is let in: the newest websocket of its user that
   * arrives alive on an open server is open from then on; if it is dead by then,
   * its removal is on its way.
   */
  lemma NewestIsAdmitted(
    c: Config, apis: nat, run: seq<Platform>, acts: seq<Act>, i: nat, w: Q.Arrival, live: bool)
    requires IsRun(c, apis, run, acts) && i < |acts| && acts[i] == Api(Q.Arrive(w, live))
    requires w.inst < |run[i].api.instances| && run[i].api.instances[w.inst].open && QT.IsNewest(run[i].db, w.key)
    ensures w.inst < |run[i + 1].api.instances|
    ensures Q.OpenAt(run[i + 1].api, w.inst, w.key) <==> live
    ensures !live ==> w.key in run[i + 1].api.removes
  {
    assert Q.Inv(run[i].api, run[i].db) by {
      RunInv(c, apis, run, acts, i);
    }
    QT.NewestIsAdmitted(run[i].api, run[i].db, w, live);
  }

  // ----- Closing a server -----

  lemma StepStaysDown(c: Config, p: Platform, a: Act, inst: nat)
    requires Q.Inv(p.api, p.db) && Enabled(c, p, a) && QT.IsDown(p.api, inst)
    ensures QT.IsDown(Next(c, p, a).api, inst)
  {
    if a.Api? {
      QT.StaysDown(p.api, p.db, a.api, inst);
    } else {
      ApiOfOthers(c, p, a);
      assert forall k :: !Q.OpenAt(p.api, inst, k);
      forall k ensures !Q.OpenAt(Next(c, p, a).api, inst, k) {
        assert !Q.OpenAt(p.api, inst, k);
      }
    }
  }

  ghost predicate KeepsDown(p: Platform, q: Platform, inst: nat) {
    QT.IsDown(p.api, inst) ==> QT.IsDown(q.api, inst)
  }

  lemma {:induction false} DownThroughout(run: seq<Platform>, i: nat, j: nat, inst: nat)
    requires i <= j < |run| && forall n :: i <= n < j ==> KeepsDown(run[n], run[n + 1], inst)
    requires QT.IsDown(run[i].api, inst)
    ensures QT.IsDown(run[j].api, inst)
    decreases j - i
  {
    if i < j {
      DownThroughout(run, i, j - 1, inst);
      assert KeepsDown(run[j - 1], run[j - 1 + 1], inst);
    }
  }

  lemma RunKeepsDown(c: Config, apis: nat, run: seq<Platform>, acts: seq<Act>, n: nat, inst: nat)
    requires IsRun(c, apis, run, acts) && n < |acts|
    ensures KeepsDown(run[n], run[n + 1], inst)
  {
    if QT.IsDown(run[n].api, inst) {
      assert Q.Inv(run[n].api, run[n].db) by {
        RunInv(c, apis, run, acts, n);
      }
      StepStaysDown(c, run[n], acts[n], inst);
    }
  }

  lemma ShutDownBringsDown(c: Config, p: Platform, inst: nat)
    requires Q.Inv(p.api, p.db) && Enabled(c, p, Api(Q.ShutDown(inst)))
    ensures QT.IsDown(Next(c, p, Api(Q.ShutDown(inst))).api, inst)
  {
    QT.ShutDownClosesAll(p.api, p.db, inst);
  }

  /** A server that is closed leaves no connection open, and none is ever open on it again. */
  lemma ClosedServersStayEmpty(
    c: Config, apis: nat, run: seq<Platform>, acts: seq<Act>, i: nat, j: nat, inst: nat)
    requires IsRun(c, apis, run, acts) && i < j < |run| && acts[i] == Api(Q.ShutDown(inst))
    ensures QT.IsDown(run[j].api, inst)
  {
    assert Q.Inv(run[i].api, run[i].db) by {
      RunInv(c, apis, run, acts, i);
    }
    ShutDownBringsDown(c, run[i], inst);
    forall n | i < n < j ensures KeepsDown(run[n], run[n + 1], inst) {
      RunKeepsDown(c, apis, run, acts, n, inst);
    }
    DownThroughout(run, i + 1, j, inst);
  }
}

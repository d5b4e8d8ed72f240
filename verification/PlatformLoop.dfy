/** The matchmaker's loop in runs of the platform: whom it puts into rooms, and when it stops. */
module PlatformLoop {
  import opened Base
  import opened Tables
  import M = Manager
  import Q = QueueApi
  import opened Platform
  import opened PlatformRows
  import opened PlatformInvariant
  import PQ = PlatformQueue

  // ----- Who is put into a room -----

  /** The players that the matchmaker carries were gathered in step `m`. */
  predicate GatheredIn(acts: seq<Act>, m: nat, users: set<Login>) {
    m < |acts| && acts[m] == Gather(users)
  }

  /** One step of a run: what is carried on is what was carried, unless it has just been gathered. */
  predicate CarriesOn(p: Platform, a: Act, q: Platform) {
    Carries(q.mm) ==> a == Gather(Carried(q.mm)) || (Carries(p.mm) && Carried(q.mm) == Carried(p.mm))
  }

  lemma StepCarriesOn(c: Config, p: Platform, a: Act)
    requires Enabled(c, p, a)
    ensures CarriesOn(p, a, Next(c, p, a))
  {
    if IsOther(a) {
      OtherFrame(c, p, a);
    }
  }

  lemma {:induction false} CarriedSince(run: seq<Platform>, acts: seq<Act>, i: nat) returns (m: nat)
    requires |run| == |acts| + 1 && i < |run| && !Carries(run[0].mm) && Carries(run[i].mm)
    requires forall n :: 0 <= n < i ==> CarriesOn(run[n], acts[n], run[n + 1])
    ensures m < i && acts[m] == Gather(Carried(run[i].mm))
  {
    assert CarriesOn(run[i - 1], acts[i - 1], run[i - 1 + 1]);
    if acts[i - 1] == Gather(Carried(run[i].mm)) {
      m := i - 1;
    } else {
      m := CarriedSince(run, acts, i - 1);
    }
  }

  /**
   * Rooms are made of waiting players: whoever AddMatch puts into a match was
   * gathered, together with the rest of the room, in one earlier step, and at
   * that moment was queued, with a deadline still to come, and in no match.
   */
  lemma RoomsAreOfWaitingPlayers(c: Config, apis: nat, run: seq<Platform>, acts: seq<Act>, i: nat) returns (m: nat)
    requires IsRun(c, apis, run, acts) && i < |acts| && acts[i] == AddMatch
    ensures m < i && acts[m] == Gather(run[i].mm.roster.Keys) && |run[i].mm.roster.Keys| == c.playersPerRoom
    ensures forall l :: l in run[i].mm.roster ==>
              && l in run[m].db.users && run[m].db.users[l].matchId.None?
              && run[m].db.users[l].queuedUntil.Some? && run[m].now < run[m].db.users[l].queuedUntil.value
  {
    forall n | 0 <= n < i ensures CarriesOn(run[n], acts[n], run[n + 1]) {
      StepCarriesOn(c, run[n], acts[n]);
    }
    m := CarriedSince(run, acts, i);
    assert Enabled(c, run[m], acts[m]);
  }

  // ----- Who is queued -----

  lemma StepQueues(c: Config, p: Platform, a: Act, l: Login)
    requires Enabled(c, p, a) && !PQ.Queues(p, a, l)
    requires l in Next(c, p, a).db.users && Next(c, p, a).db.users[l].queuedUntil.Some?
    ensures l in p.db.users && p.db.users[l].queuedUntil.Some?
  {
    if l !in p.db.users {
      NewcomersAreIdle(c, p, a, l);
    } else {
      PQ.StepKeepsOff(c, p, a, l);
    }
  }

  /** Nobody is queued unasked: whoever is queued was put there by an earlier `setQueueStatus` of its own. */
  lemma {:induction false} NobodyIsQueuedUnasked(
    c: Config, apis: nat, run: seq<Platform>, acts: seq<Act>, j: nat, l: Login)
    returns (i: nat)
    requires IsRun(c, apis, run, acts) && j < |run|
    requires l in run[j].db.users && run[j].db.users[l].queuedUntil.Some?
    ensures i < j && PQ.Queues(run[i], acts[i], l)
  {
    if PQ.Queues(run[j - 1], acts[j - 1], l) {
      i := j - 1;
    } else {
      StepQueues(c, run[j - 1], acts[j - 1], l);
      i := NobodyIsQueuedUnasked(c, apis, run, acts, j - 1, l);
    }
  }

  lemma NewcomersAreIdle(c: Config, p: Platform, a: Act, l: Login)
    requires Enabled(c, p, a) && l !in p.db.users && l in Next(c, p, a).db.users
    ensures a == NewUser(l) && Next(c, p, a).db.users[l] == UserRow(None, None, None, 0)
  {
    if IsOther(a) {
      OtherRowsFrame(c, p, a);
      OthersAddNobody(p, a, l);
    }
  }

  lemma OthersAddNobody(p: Platform, a: Act, l: Login)
    requires l !in p.db.users && l in OtherTables(p, a).users
    ensures a == NewUser(l) && OtherTables(p, a).users[l] == UserRow(None, None, None, 0)
  {
  }

  // ----- When a step fails -----

  predicate IsFailure(a: Act) {
    || a.GatherFailed? || a.TokensFailed? || a.NextIdFailed? || a.AssignLost? || a.AssignFailed? || a.AddFailed?
  }

  /**
   * A step of the loop that fails makes it start over, with nobody carried. No
   * match is added and nobody enters one, leaves one or changes its place in
   * the queue; the sequence of match ids does not go back, and no worker takes
   * a match or loses one.
   */
  lemma FailuresStartOver(c: Config, apis: nat, run: seq<Platform>, acts: seq<Act>, i: nat)
    requires IsRun(c, apis, run, acts) && i < |acts| && IsFailure(acts[i])
    ensures run[i + 1].mm == Waiting && run[i + 1].mgr.pool.workers == run[i].mgr.pool.workers
    ensures run[i + 1].db.matches == run[i].db.matches && run[i + 1].db.nextId >= run[i].db.nextId
    ensures run[i + 1].db.users.Keys == run[i].db.users.Keys
    ensures forall l :: l in run[i].db.users ==>
              run[i + 1].db.users[l] == run[i].db.users[l].(token := run[i + 1].db.users[l].token)
    ensures run[i + 1].db.users == run[i].db.users ||
            (acts[i].TokensFailed? && run[i].mm.Tokening? &&
             forall l :: l in run[i].db.users && l !in run[i].mm.users ==> run[i + 1].db.users[l] == run[i].db.users[l])
  {
    if acts[i].AssignLost? {
      var m := M.Next(c.manager, run[i].mgr, M.AssignLost(run[i].mm.id));
      assert run[i + 1].mgr == m && m.pool.workers == run[i].mgr.pool.workers;
    }
  }

  // ----- When it stops -----

  /** One step of a run: only a new server manager takes the loop up again. */
  predicate StaysStopped(p: Platform, a: Act, q: Platform) {
    p.mm == Stopped && a != Reboot && a != SetupRun ==> q.mm == Stopped
  }

  lemma StepStaysStopped(c: Config, p: Platform, a: Act)
    requires Enabled(c, p, a)
    ensures StaysStopped(p, a, Next(c, p, a))
  {
  }

  lemma {:induction false} StoppedThroughout(
    c: Config, apis: nat, run: seq<Platform>, acts: seq<Act>, i: nat, j: nat)
    requires IsRun(c, apis, run, acts) && i <= j < |run| && run[i].mm == Stopped
    requires forall n :: i <= n < j ==> acts[n] != Reboot
    ensures run[j].mm == Stopped
    decreases j - i
  {
    if i < j {
      StoppedThroughout(c, apis, run, acts, i, j - 1);
      StepStaysStopped(c, run[j - 1], acts[j - 1]);
    }
  }

  /**
   * A cancelled server manager makes no more rooms: once its loop returns from
   * waiting and finds the context cancelled, it offers no match to a worker and
   * adds none to the rows until a new server manager starts. With a live
   * context it goes on to gather players.
   */
  lemma CanceledLoopStops(c: Config, apis: nat, run: seq<Platform>, acts: seq<Act>, i: nat, j: nat)
    requires IsRun(c, apis, run, acts) && i < j < |acts| && acts[i] == WaitReturn
    requires forall n :: i < n < j ==> acts[n] != Reboot
    ensures !run[i].mgr.canceled ==> run[i + 1].mm == Gathering
    ensures run[i].mgr.canceled ==>
              && !acts[j].Gather? && !acts[j].TokensRun? && !acts[j].NextId?
              && !acts[j].AssignMatch? && !acts[j].AssignLost? && acts[j] != AddMatch
  {
    if run[i].mgr.canceled {
      StoppedThroughout(c, apis, run, acts, i + 1, j);
    }
    assert Enabled(c, run[j], acts[j]);
  }
}

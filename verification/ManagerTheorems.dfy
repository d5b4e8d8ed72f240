/** What the worker manager guarantees over every run of its steps. */
module ManagerTheorems {
  import opened Base
  import opened Workers
  import Pool
  import opened Manager

  /** `run[i]` is the state before step `acts[i]`; `offered` holds the match ids used before the start. */
  ghost predicate IsRun(c: Config, n: nat, offered: multiset<int>, run: seq<Mgr>, acts: seq<Act>) {
    && (forall m :: offered[m] <= 1)
    && (forall m :: m in offered ==> m >= 1)
    && |run| == |acts| + 1
    && run[0] == Start(n, offered)
    && forall i :: 0 <= i < |acts| ==>
         Enabled(c, run[i], acts[i]) && Proper(run[i], acts[i]) && run[i + 1] == Next(c, run[i], acts[i])
  }

  lemma {:induction false} RunInv(
    c: Config, n: nat, offered: multiset<int>, run: seq<Mgr>, acts: seq<Act>, i: nat)
    requires IsRun(c, n, offered, run, acts) && i < |run|
    ensures Inv(c, run[i])
  {
    if i == 0 {
      StartInv(c, n, offered);
    } else {
      RunInv(c, n, offered, run, acts, i - 1);
      StepInv(c, run[i - 1], acts[i - 1]);
    }
  }

  // ----- The waiter -----

  /**
   * No lost wake-up: while the waiter sleeps unsignaled no worker is free, and
   * if the context was canceled its AfterFunc is still going to signal. And a
   * waiter that has something to wake up for can always be brought closer to
   * waking as soon as `mu` is free.
   */
  lemma NoLostWakeUp(c: Config, n: nat, offered: multiset<int>, run: seq<Mgr>, acts: seq<Act>, i: nat)
    requires IsRun(c, n, offered, run, acts) && i < |run|
    ensures run[i].waiter == Asleep(false) ==>
              !SomeFree(run[i]) && (run[i].canceled ==> run[i].wakers >= 1)
    ensures run[i].waiter.Asleep? && (SomeFree(run[i]) || run[i].canceled) && run[i].mu == Nobody ==>
              Enabled(c, run[i], WaitWake) || Enabled(c, run[i], AfterFunc)
  {
    RunInv(c, n, offered, run, acts, i);
  }

  lemma OnlyWaitCheckReturns(c: Config, m: Mgr, a: Act)
    requires Enabled(c, m, a) && m.waiter != Outside && Next(c, m, a).waiter == Outside
    ensures m.waiter == Locked && (SomeFree(m) || m.canceled)
  {
  }

  /** `WaitForFreeWorker` returns only when it sees a free worker or a canceled context. */
  lemma WaitReturnsForAReason(
    c: Config, n: nat, offered: multiset<int>, run: seq<Mgr>, acts: seq<Act>, i: nat)
    requires IsRun(c, n, offered, run, acts) && i < |acts|
    requires run[i].waiter != Outside && run[i + 1].waiter == Outside
    ensures run[i].mu == ByWaiter && (SomeFree(run[i]) || run[i].canceled)
  {
    OnlyWaitCheckReturns(c, run[i], acts[i]);
    assert MutexInv(run[i]) by {
      RunInv(c, n, offered, run, acts, i);
    }
  }

  // ----- The save pipeline -----

  /**
   * The pipeline is a FIFO: what was sent into the channel is, in order, what
   * the saver has finished, what it has in hand, and what still waits. What the
   * inbox sent is, in order, what it acknowledged, short of the one message
   * that is acknowledged and not sent yet.
   */
  lemma PipelineIsFifo(c: Config, n: nat, offered: multiset<int>, run: seq<Mgr>, acts: seq<Act>, i: nat)
    requires IsRun(c, n, offered, run, acts) && i < |run|
    ensures var m := run[i];
            && Results(m.enqueued) == m.done + InHand(m.saver) + m.chan
            && |m.chan| <= c.capacity
            && m.acked == InboxResults(m.enqueued) + Unsent(m.inbox)
            && |Unsent(m.inbox)| <= 1
  {
    RunInv(c, n, offered, run, acts, i);
  }

  /** The health check sends at most one cancel for a match, and only for a match that was assigned. */
  lemma OneCancelPerMatch(
    c: Config, n: nat, offered: multiset<int>, run: seq<Mgr>, acts: seq<Act>, i: nat, id: int)
    requires IsRun(c, n, offered, run, acts) && i < |run|
    ensures CancelIds(run[i].enqueued)[id] <= run[i].pool.taken[id] <= 1
  {
    RunInv(c, n, offered, run, acts, i);
    var m := run[i];
    assert m.pool.taken[id] <= m.pool.offered[id];
    if id in CancelOut(m) {
      Pool.RunningCounts(m.pool.workers, m.health.next);
    }
  }

  /** What a health check sends is a failed result without details, for a match that a worker took. */
  predicate IsCancel(m: Mgr, res: Result) {
    !res.success && res.details == "{}" && res.matchId in m.pool.taken
  }

  ghost predicate CancelsOk(m: Mgr) {
    forall k :: 0 <= k < |m.enqueued| && m.enqueued[k].source == FromHealth ==> IsCancel(m, m.enqueued[k].res)
  }

  lemma TakenGrows(c: Config, m: Mgr, a: Act)
    requires Enabled(c, m, a)
    ensures m.pool.taken <= Next(c, m, a).pool.taken
  {
  }

  /** Only the inbox and the health check send. */
  lemma OnlySends(c: Config, m: Mgr, a: Act)
    requires Enabled(c, m, a) && a != CancelPush
    ensures Next(c, m, a).enqueued ==
            m.enqueued + if a == Push && m.inbox.Acked? then [Entry(FromInbox, m.inbox.res)] else []
  {
  }

  lemma CancelSent(c: Config, m: Mgr)
    requires Pool.Inv(m.pool) && MutexInv(m) && Enabled(c, m, CancelPush)
    ensures |Next(c, m, CancelPush).enqueued| == |m.enqueued| + 1
    ensures var e := Next(c, m, CancelPush).enqueued[|m.enqueued|];
            && Next(c, m, CancelPush).enqueued == m.enqueued + [e]
            && !e.res.success && e.res.details == "{}" && e.res.matchId in m.pool.taken
  {
    var w := m.pool.workers[m.health.next];
    assert Pool.WorkerOk(w);
    Pool.RunningCounts(m.pool.workers, m.health.next);
    assert m.pool.taken[w.matchId] >= 1;
  }

  lemma CancelsStep(c: Config, m: Mgr, a: Act)
    requires Pool.Inv(m.pool) && MutexInv(m) && CancelsOk(m) && Enabled(c, m, a)
    ensures CancelsOk(Next(c, m, a))
  {
    var n := Next(c, m, a);
    TakenGrows(c, m, a);
    if a == CancelPush {
      CancelSent(c, m);
    } else {
      OnlySends(c, m, a);
    }
    forall k | 0 <= k < |n.enqueued| && n.enqueued[k].source == FromHealth ensures IsCancel(n, n.enqueued[k].res) {
      if k < |m.enqueued| {
        assert m.enqueued[k] == n.enqueued[k];
      }
    }
  }

  lemma {:induction false} RunCancels(
    c: Config, n: nat, offered: multiset<int>, run: seq<Mgr>, acts: seq<Act>, i: nat)
    requires IsRun(c, n, offered, run, acts) && i < |run|
    ensures CancelsOk(run[i])
  {
    if i > 0 {
      RunCancels(c, n, offered, run, acts, i - 1);
      assert Pool.Inv(run[i - 1].pool) && MutexInv(run[i - 1]) by {
        RunInv(c, n, offered, run, acts, i - 1);
      }
      CancelsStep(c, run[i - 1], acts[i - 1]);
    }
  }

  /**
   * Whatever a health check ever sends to the saver is a failed result with
   * empty details, for a match that was assigned to a worker.
   */
  lemma HealthSendsFailures(
    c: Config, n: nat, offered: multiset<int>, run: seq<Mgr>, acts: seq<Act>, i: nat, k: nat)
    requires IsRun(c, n, offered, run, acts) && i < |run|
    requires k < |run[i].enqueued| && run[i].enqueued[k].source == FromHealth
    ensures var res := run[i].enqueued[k].res;
            !res.success && res.details == "{}" && res.matchId in run[i].pool.taken
  {
    RunCancels(c, n, offered, run, acts, i);
  }

  // ----- The rounds of the health check -----

  /** The check that is under way is done with the ping of worker `w`. */
  predicate Passed(h: Health, w: nat) {
    HealthHolds(h) && (w < h.next || (w == h.next && !h.Visiting?))
  }

  /** One step of a run: a check gets past a worker by visiting it, and keeps the answers it came with. */
  predicate PassesByVisit(m: Mgr, a: Act, n: Mgr, w: nat) {
    Passed(n.health, w) ==>
      && HealthHolds(m.health) && n.health.pongs == m.health.pongs
      && (Passed(m.health, w) || (a.Visit? && m.health == Visiting(m.health.pongs, w)))
  }

  lemma StepPasses(c: Config, m: Mgr, a: Act, w: nat)
    requires Enabled(c, m, a)
    ensures PassesByVisit(m, a, Next(c, m, a), w)
  {
    if !IsHealthAct(a) {
      HealthKept(c, m, a);
    }
  }

  lemma HealthKept(c: Config, m: Mgr, a: Act)
    requires Enabled(c, m, a) && !IsHealthAct(a)
    ensures Next(c, m, a).health == m.health
  {
  }

  lemma {:induction false} VisitedBefore(run: seq<Mgr>, acts: seq<Act>, j: nat, w: nat) returns (i: nat)
    requires |run| == |acts| + 1 && j < |run| && !HealthHolds(run[0].health) && Passed(run[j].health, w)
    requires forall k :: 0 <= k < j ==> PassesByVisit(run[k], acts[k], run[k + 1], w)
    ensures i < j && acts[i].Visit? && run[i].health == Visiting(run[j].health.pongs, w)
    ensures forall k :: i < k <= j ==> Passed(run[k].health, w)
  {
    assert PassesByVisit(run[j - 1], acts[j - 1], run[j - 1 + 1], w);
    if Passed(run[j - 1].health, w) {
      i := VisitedBefore(run, acts, j - 1, w);
    } else {
      i := j - 1;
    }
  }

  /**
   * A health check leaves nobody out: when it unlocks, each worker has been
   * visited in some step under that lock, by the same answers, and since then
   * the check has been past it.
   */
  lemma EveryWorkerIsVisited(
    c: Config, n: nat, offered: multiset<int>, run: seq<Mgr>, acts: seq<Act>, j: nat, w: nat)
    returns (i: nat)
    requires IsRun(c, n, offered, run, acts) && j < |acts| && acts[j] == HealthUnlock
    requires w < |run[j].pool.workers|
    ensures i < j && acts[i].Visit? && run[i].health == Visiting(run[j].health.pongs, w)
    ensures forall k :: i < k <= j ==> run[k].mu == ByHealth && Passed(run[k].health, w)
  {
    forall k | 0 <= k < j ensures PassesByVisit(run[k], acts[k], run[k + 1], w) {
      StepPasses(c, run[k], acts[k], w);
    }
    i := VisitedBefore(run, acts, j, w);
    forall k | i < k <= j ensures run[k].mu == ByHealth {
      assert MutexInv(run[k]) by {
        RunInv(c, n, offered, run, acts, k);
      }
      assert Passed(run[k].health, w);
    }
  }

  /** One step of a run: the answers of a check are those of the ping before it. */
  predicate AnswersKept(m: Mgr, a: Act, n: Mgr) {
    n.health != Idle ==> a == Ping(n.health.pongs) || (m.health != Idle && n.health.pongs == m.health.pongs)
  }

  lemma StepKeepsAnswers(c: Config, m: Mgr, a: Act)
    requires Enabled(c, m, a)
    ensures AnswersKept(m, a, Next(c, m, a))
  {
    if !IsHealthAct(a) {
      HealthKept(c, m, a);
    }
  }

  /** The answers that a health check goes by are those of an earlier ping. */
  lemma {:induction false} AnswersArePinged(
    c: Config, n: nat, offered: multiset<int>, run: seq<Mgr>, acts: seq<Act>, j: nat)
    returns (i: nat)
    requires IsRun(c, n, offered, run, acts) && j < |run| && run[j].health != Idle
    ensures i < j && acts[i] == Ping(run[j].health.pongs)
  {
    StepKeepsAnswers(c, run[j - 1], acts[j - 1]);
    if acts[j - 1] == Ping(run[j].health.pongs) {
      i := j - 1;
    } else {
      i := AnswersArePinged(c, n, offered, run, acts, j - 1);
    }
  }

  // ----- The lock -----

  /** Steps of the health check and of the saver. */
  predicate IsWork(a: Act) {
    IsHealthAct(a) || IsSaverAct(a)
  }

  /** Sends that the health check may still make before it unlocks. */
  function SendsLeft(m: Mgr): nat
    requires MutexInv(m) && m.mu == ByHealth
  {
    |m.pool.workers| - m.health.next - if m.health.Marking? then 1 else 0
  }

  /** Steps the health check may still take before it unlocks. */
  function HolderStepsLeft(m: Mgr): nat
    requires MutexInv(m) && m.mu == ByHealth
  {
    3 * (|m.pool.workers| - m.health.next) + 1
    - match m.health case Visiting(_, _) => 0 case Canceling(_, _) => 1 case _ => 2
  }

  /**
   * How much work the health check and the saver can still do before `mu` is
   * released. Only the inbox can add to the channel meanwhile, and only once:
   * its next step after a send needs `mu`.
   */
  function WorkLeft(m: Mgr): nat
    requires MutexInv(m) && m.mu == ByHealth
  {
    var comingIn := |m.chan| + SendsLeft(m) + if m.inbox.Pushed? then 0 else 1;
    HolderStepsLeft(m) + 3 * comingIn
    + match m.saver case Gone => 0 case Resting => 1 case Saving(_) => 2 case Removing(_) => 3
  }

  lemma WorkersKeptWhileHeld(c: Config, m: Mgr, a: Act)
    requires Enabled(c, m, a)
    requires m.mu == ByHealth
    ensures |Next(c, m, a).pool.workers| == |m.pool.workers|
  {
  }

  lemma HealthWorkDecreases(c: Config, m: Mgr, a: Act)
    requires MutexInv(m) && Enabled(c, m, a) && IsHealthAct(a)
    requires m.mu == ByHealth && Next(c, m, a).mu == ByHealth && MutexInv(Next(c, m, a))
    ensures WorkLeft(Next(c, m, a)) + 1 <= WorkLeft(m)
  {
    WorkersKeptWhileHeld(c, m, a);
    var n := HealthStep(c, m, a);
    assert n.saver == m.saver && n.inbox == m.inbox;
  }

  lemma OtherWorkKept(c: Config, m: Mgr, a: Act)
    requires MutexInv(m) && Enabled(c, m, a) && !IsHealthAct(a)
    requires m.mu == ByHealth && Next(c, m, a).mu == ByHealth && MutexInv(Next(c, m, a))
    ensures WorkLeft(Next(c, m, a)) + (if IsWork(a) then 1 else 0) <= WorkLeft(m)
  {
    WorkersKeptWhileHeld(c, m, a);
    var n := Next(c, m, a);
    assert n.health == m.health;
  }

  /** As long as `mu` stays held, work decreases the measure and nothing else raises it. */
  lemma WorkDecreases(c: Config, m: Mgr, a: Act)
    requires MutexInv(m) && Enabled(c, m, a)
    requires m.mu == ByHealth && Next(c, m, a).mu == ByHealth && MutexInv(Next(c, m, a))
    ensures WorkLeft(Next(c, m, a)) + (if IsWork(a) then 1 else 0) <= WorkLeft(m)
  {
    if IsHealthAct(a) {
      HealthWorkDecreases(c, m, a);
    } else {
      OtherWorkKept(c, m, a);
    }
  }

  /** The health check waits for room in a full channel whose only receiver has left. */
  predicate Stuck(c: Config, m: Mgr) {
    m.saver == Gone && |m.chan| == c.capacity && m.health.Canceling?
  }

  /** A step that the health check or the saver can take next, unless the check is stuck. */
  function NextWork(c: Config, m: Mgr, now: Time): (a: Act)
    requires MutexInv(m) && |m.chan| <= c.capacity && c.capacity >= 1 && m.mu == ByHealth && !Stuck(c, m)
    ensures IsWork(a) && Enabled(c, m, a)
  {
    if m.health.Visiting? then if m.health.next < |m.pool.workers| then Visit(now) else HealthUnlock
    else if m.health.Marking? then Mark(now)
    else if |m.chan| < c.capacity then CancelPush
    else if m.saver.Resting? then Receive
    else if m.saver.Removing? then Removed
    else Saved
  }

  /**
   * While the health check holds `mu`, it or the saver can take a step if and
   * only if the check is not stuck.
   */
  lemma WorkIsPossible(c: Config, m: Mgr)
    requires MutexInv(m) && |m.chan| <= c.capacity && c.capacity >= 1 && m.mu == ByHealth
    ensures (exists a: Act :: IsWork(a) && Enabled(c, m, a)) <==> !Stuck(c, m)
  {
    if !Stuck(c, m) {
      var a := NextWork(c, m, 0);
      assert IsWork(a) && Enabled(c, m, a);
    }
  }

  function WorkIn(acts: seq<Act>): nat {
    if acts == [] then 0
    else WorkIn(acts[..|acts| - 1]) + if IsWork(acts[|acts| - 1]) then 1 else 0
  }

  /** A measure that every unit of work lowers bounds the work. */
  lemma {:induction false} MeasureBoundsWork(left: seq<int>, acts: seq<Act>)
    requires |left| == |acts| + 1
    requires forall k :: 0 <= k < |acts| ==> left[k + 1] + (if IsWork(acts[k]) then 1 else 0) <= left[k]
    ensures WorkIn(acts) + left[|acts|] <= left[0]
  {
    if acts != [] {
      MeasureBoundsWork(left[..|acts|], acts[..|acts| - 1]);
    }
  }

  /** A step of a run during which the health check keeps `mu`. */
  predicate HeldStep(c: Config, m: Mgr, a: Act, n: Mgr) {
    && Enabled(c, m, a) && n == Next(c, m, a)
    && MutexInv(m) && MutexInv(n) && m.mu == ByHealth && n.mu == ByHealth
  }

  lemma StepDecreases(c: Config, m: Mgr, a: Act, n: Mgr)
    requires HeldStep(c, m, a, n)
    ensures WorkLeft(n) + (if IsWork(a) then 1 else 0) <= WorkLeft(m)
  {
    WorkDecreases(c, m, a);
  }

  lemma HeldWorkIsBounded(c: Config, run: seq<Mgr>, acts: seq<Act>)
    requires |run| == |acts| + 1
    requires forall k :: 0 <= k < |run| ==> MutexInv(run[k]) && run[k].mu == ByHealth
    requires forall k :: 0 <= k < |acts| ==> HeldStep(c, run[k], acts[k], run[k + 1])
    ensures WorkIn(acts) + WorkLeft(run[|acts|]) <= WorkLeft(run[0])
  {
    var left := seq(|run|, k requires 0 <= k < |run| => WorkLeft(run[k]) as int);
    forall k | 0 <= k < |acts|
      ensures left[k + 1] + (if IsWork(acts[k]) then 1 else 0) <= left[k]
    {
      StepDecreases(c, run[k], acts[k], run[k + 1]);
    }
    MeasureBoundsWork(left, acts);
  }

  /**
   * Bounded lock hold: in every run, as long as a health check keeps `mu` from
   * state `i` to state `j`, it and the saver take at most `WorkLeft(run[i])`
   * steps together, whatever else happens in between. One of them can take the
   * next if and only if the check is not stuck, which it never is while the
   * context lives. So a check that blocks on a full channel then lets go of the
   * lock after finitely many steps of the two.
   */
  lemma LockHoldIsBounded(
    c: Config, n: nat, offered: multiset<int>, run: seq<Mgr>, acts: seq<Act>, i: nat, j: nat)
    requires IsRun(c, n, offered, run, acts) && i <= j < |run| && c.capacity >= 1
    requires forall k :: i <= k <= j ==> run[k].mu == ByHealth
    ensures MutexInv(run[i]) && MutexInv(run[j])
    ensures WorkIn(acts[i..j]) + WorkLeft(run[j]) <= WorkLeft(run[i])
    ensures (exists a: Act :: IsWork(a) && Enabled(c, run[j], a)) <==> !Stuck(c, run[j])
    ensures !run[j].canceled ==> !Stuck(c, run[j])
  {
    HoldIsShaped(c, n, offered, run, acts, i, j);
    HeldWorkIsBounded(c, run[i..j + 1], acts[i..j]);
    WorkIsPossible(c, run[j]);
    assert SaverInv(run[j]) by {
      RunInv(c, n, offered, run, acts, j);
    }
  }

  lemma HoldIsShaped(
    c: Config, n: nat, offered: multiset<int>, run: seq<Mgr>, acts: seq<Act>, i: nat, j: nat)
    requires IsRun(c, n, offered, run, acts) && i <= j < |run|
    requires forall k :: i <= k <= j ==> run[k].mu == ByHealth
    ensures forall k :: i <= k <= j ==> MutexInv(run[k]) && |run[k].chan| <= c.capacity
    ensures forall k :: 0 <= k < j - i ==> HeldStep(c, run[i..j + 1][k], acts[i..j][k], run[i..j + 1][k + 1])
  {
    forall k | i <= k <= j ensures MutexInv(run[k]) && |run[k].chan| <= c.capacity {
      RunInv(c, n, offered, run, acts, k);
    }
    forall k | 0 <= k < j - i ensures HeldStep(c, run[i..j + 1][k], acts[i..j][k], run[i..j + 1][k + 1]) {
      assert Enabled(c, run[i + k], acts[i + k]) && run[i + k + 1] == Next(c, run[i + k], acts[i + k]);
    }
  }

  // ----- When the context is canceled -----

  /** One step of a stuck check. */
  predicate StaysStuck(c: Config, m: Mgr, n: Mgr) {
    Stuck(c, m) && m.mu == ByHealth ==> Stuck(c, n) && n.mu == ByHealth
  }

  lemma StuckStep(c: Config, m: Mgr, a: Act)
    requires MutexInv(m) && Enabled(c, m, a)
    ensures StaysStuck(c, m, Next(c, m, a))
  {
  }

  lemma {:induction false} StuckThroughout(c: Config, run: seq<Mgr>, i: nat, j: nat)
    requires i <= j < |run| && forall k :: i <= k < j ==> StaysStuck(c, run[k], run[k + 1])
    requires Stuck(c, run[i]) && run[i].mu == ByHealth
    ensures Stuck(c, run[j]) && run[j].mu == ByHealth
    decreases j - i
  {
    if i < j {
      StuckThroughout(c, run, i, j - 1);
      assert StaysStuck(c, run[j - 1], run[j - 1 + 1]);
    }
  }

  /**
   * A check that is stuck keeps `mu` for good: nothing in any later part of the
   * run releases it, so neither a waiter nor its AfterFunc ever gets it.
   */
  lemma StuckForGood(
    c: Config, n: nat, offered: multiset<int>, run: seq<Mgr>, acts: seq<Act>, i: nat, j: nat)
    requires IsRun(c, n, offered, run, acts) && i <= j < |run|
    requires Stuck(c, run[i]) && run[i].mu == ByHealth
    ensures Stuck(c, run[j]) && run[j].mu == ByHealth && run[j].canceled
    ensures !Enabled(c, run[j], WaitWake) && !Enabled(c, run[j], AfterFunc) && !Enabled(c, run[j], HealthUnlock)
  {
    forall k | i <= k < j ensures StaysStuck(c, run[k], run[k + 1]) {
      assert MutexInv(run[k]) by {
        RunInv(c, n, offered, run, acts, k);
      }
      StuckStep(c, run[k], acts[k]);
    }
    StuckThroughout(c, run, i, j);
    assert SaverInv(run[j]) by {
      RunInv(c, n, offered, run, acts, j);
    }
  }

  // ----- A run that gets stuck -----

  const FIRST := Result(true, 1, "{}")

  /** One worker, no missed ping allowed, room for one result. */
  function Narrow(timeout: nat): Config {
    Config(Limits(0, timeout), 1)
  }

  function StuckActs(): seq<Act> {
    [AssignOk(1), Deliver(FIRST), Ack, Push, Ping({}), HealthLock, Visit(0), Cancel, SaverExit]
  }

  /** The state before each step. */
  function StuckState(n: nat): Mgr {
    Mgr(
      if n == 0 then Pool.Pool([FRESH], [], multiset{}, multiset{}, multiset{}, multiset{})
      else Pool.Pool([Rec(Occupied, 1, None, 1, if n <= 6 then 0 else 1)], [],
                     multiset{1}, multiset{1}, multiset{}, multiset{}),
      if n <= 5 then Nobody else ByHealth,
      Outside, false, 0, n >= 8,
      if n <= 3 then [] else [FIRST],
      if n <= 4 then Idle else if n == 5 then Ready({}) else if n == 6 then Visiting({}, 0) else Canceling({}, 0),
      if n <= 1 then Listening else if n == 2 then Got(FIRST) else if n == 3 then Acked(FIRST) else Pushed(FIRST),
      if n <= 8 then Resting else Gone,
      if n <= 3 then [] else [Entry(FromInbox, FIRST)],
      [], [],
      if n <= 2 then [] else [FIRST])
  }

  ghost predicate StuckFollows(timeout: nat, n: nat)
    requires n < 9
  {
    && Enabled(Narrow(timeout), StuckState(n), StuckActs()[n]) && Proper(StuckState(n), StuckActs()[n])
    && StuckState(n + 1) == Next(Narrow(timeout), StuckState(n), StuckActs()[n])
  }

  lemma StuckAssigns(timeout: nat)
    ensures StuckFollows(timeout, 0)
  {
    var p := StuckState(0).pool;
    assert p.workers[0].state == Free;
    assert Pool.FreeWorker(p.workers) == Some(0);
    assert multiset{} + multiset{1} == multiset{1};
  }

  lemma StuckFills(timeout: nat)
    ensures StuckFollows(timeout, 1) && StuckFollows(timeout, 2) && StuckFollows(timeout, 3)
  {
  }

  lemma StuckChecks(timeout: nat)
    ensures StuckFollows(timeout, 4) && StuckFollows(timeout, 5) && StuckFollows(timeout, 6)
  {
  }

  lemma StuckEnds(timeout: nat)
    ensures StuckFollows(timeout, 7) && StuckFollows(timeout, 8)
  {
  }

  lemma EachStuckFollows(timeout: nat, n: nat)
    requires n < 9
    ensures StuckFollows(timeout, n)
  {
    if n == 0 {
      StuckAssigns(timeout);
    } else if n <= 3 {
      StuckFills(timeout);
    } else if n <= 6 {
      StuckChecks(timeout);
    } else {
      StuckEnds(timeout);
    }
  }

  lemma StuckBegins()
    ensures StuckState(0) == Start(1, multiset{})
  {
    assert Pool.Start(1, multiset{}).workers == [FRESH];
  }

  /**
   * The live context is needed: here is a run in which the context is canceled
   * while a health check waits for room, the saver leaves, and `mu` is lost.
   */
  lemma CanceledCheckGetsStuck(timeout: nat) returns (run: seq<Mgr>)
    ensures IsRun(Narrow(timeout), 1, multiset{}, run, StuckActs())
    ensures Stuck(Narrow(timeout), run[9]) && run[9].mu == ByHealth
  {
    run := seq(10, n requires 0 <= n < 10 => StuckState(n));
    StuckBegins();
    forall n | 0 <= n < 9
      ensures Enabled(Narrow(timeout), run[n], StuckActs()[n]) && Proper(run[n], StuckActs()[n])
      ensures run[n + 1] == Next(Narrow(timeout), run[n], StuckActs()[n])
    {
      EachStuckFollows(timeout, n);
    }
  }
}

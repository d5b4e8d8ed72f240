/** What the worker table guarantees over every run of its critical sections. */
module PoolTheorems {
  import opened Base
  import opened Workers
  import opened Pool

  // ----- Refinement of a pool of slots -----

  /** A worker as a caller sees it. */
  datatype Slot = Idle | Busy(matchId: int) | Down

  datatype SlotOp =
    | Take(slot: nat, matchId: int)
    | Finish(slot: nat)
    | Fail(slot: nat)
    | Recover(slot: nat)
    | Stutter

  function SlotOf(w: Rec): Slot {
    match w.state
    case Free => Idle
    case Occupied => Busy(w.matchId)
    case Restarting => Down
  }

  function Slots(p: Pool): (s: seq<Slot>)
    ensures |s| == |p.workers| && forall i :: 0 <= i < |s| ==> s[i] == SlotOf(p.workers[i])
  {
    seq(|p.workers|, i requires 0 <= i < |p.workers| => SlotOf(p.workers[i]))
  }

  /** Slots move Idle -> Busy(m) -> Idle, either of them -> Down, and Down -> Idle. */
  predicate SlotStep(s: seq<Slot>, op: SlotOp, s': seq<Slot>) {
    match op
    case Take(i, m) => i < |s| && s[i] == Idle && s' == s[i := Busy(m)]
    case Finish(i) => i < |s| && s[i].Busy? && s' == s[i := Idle]
    case Fail(i) => i < |s| && s[i] != Down && s' == s[i := Down]
    case Recover(i) => i < |s| && s[i] == Down && s' == s[i := Idle]
    case Stutter => s' == s
  }

  /** The slot operation that a critical section performs. */
  function SlotOpOf(p: Pool, op: Op): SlotOp
    requires Enabled(p, op)
  {
    match op
    case Assign(m) => Take(FreeWorker(p.workers).value, m)
    case OfferFailed(_) => Stutter
    case Release(m) => (match Holder(p.workers, m) case None => Stutter case Some(i) => Finish(i))
    case Pong(_, _) => Stutter
    case Mark(i, _) => if p.workers[i].state == Restarting then Stutter else Fail(i)
    case RestartDone(k) =>
      var t := p.tickets[k];
      if p.workers[t.worker].stateId == t.id then Recover(t.worker) else Stutter
    case RestartFailed(_) => Stutter
  }

  lemma TakeImplemented(p: Pool, m: int, limits: Limits)
    requires Enabled(p, Assign(m))
    ensures SlotStep(Slots(p), SlotOpOf(p, Assign(m)), Slots(Apply(p, Assign(m), limits)))
  {
    assert Slots(Apply(p, Assign(m), limits)) == Slots(p)[FreeWorker(p.workers).value := Busy(m)];
  }

  lemma ReleaseImplemented(p: Pool, m: int, limits: Limits)
    requires Shape(p) && m >= 1
    ensures SlotStep(Slots(p), SlotOpOf(p, Release(m)), Slots(Apply(p, Release(m), limits)))
  {
    if Holder(p.workers, m).Some? {
      assert Slots(Apply(p, Release(m), limits)) == Slots(p)[Holder(p.workers, m).value := Idle];
    }
  }

  lemma MarkImplemented(p: Pool, i: nat, now: Time, limits: Limits)
    requires i < |p.workers|
    ensures SlotStep(Slots(p), SlotOpOf(p, Mark(i, now)), Slots(Apply(p, Mark(i, now), limits)))
  {
    assert Slots(Apply(p, Mark(i, now), limits)) == Slots(p)[i := Down];
  }

  lemma RestartImplemented(p: Pool, k: nat, limits: Limits)
    requires TicketsOk(p) && Enabled(p, RestartDone(k))
    ensures SlotStep(Slots(p), SlotOpOf(p, RestartDone(k)), Slots(Apply(p, RestartDone(k), limits)))
  {
    var t := p.tickets[k];
    if p.workers[t.worker].stateId == t.id {
      assert Slots(Apply(p, RestartDone(k), limits)) == Slots(p)[t.worker := Idle];
    } else {
      assert Slots(Apply(p, RestartDone(k), limits)) == Slots(p);
    }
  }

  /**
   * The manager implements the slot pool. In particular a restart only ever
   * brings a Down worker back, and a result only ever ends a running match.
   */
  lemma ImplementsSlots(p: Pool, op: Op, limits: Limits)
    requires Inv(p) && Enabled(p, op) && Proper(p, op)
    ensures SlotStep(Slots(p), SlotOpOf(p, op), Slots(Apply(p, op, limits)))
  {
    match op
    case Assign(m) => TakeImplemented(p, m, limits);
    case OfferFailed(_) =>
    case Release(m) => ReleaseImplemented(p, m, limits);
    case Pong(i, pong) => assert Slots(Apply(p, op, limits)) == Slots(p);
    case Mark(i, now) => MarkImplemented(p, i, now, limits);
    case RestartDone(k) => RestartImplemented(p, k, limits);
    case RestartFailed(_) => assert Slots(Apply(p, op, limits)) == Slots(p);
  }

  // ----- Runs -----

  /** `run[i]` is the table before operation `ops[i]`. */
  ghost predicate IsRun(run: seq<Pool>, ops: seq<Op>, limits: Limits) {
    && |run| == |ops| + 1
    && Inv(run[0])
    && forall i :: 0 <= i < |ops| ==>
         Enabled(run[i], ops[i]) && Proper(run[i], ops[i]) && run[i + 1] == Apply(run[i], ops[i], limits)
  }

  lemma {:induction false} RunInv(run: seq<Pool>, ops: seq<Op>, i: nat, limits: Limits)
    requires IsRun(run, ops, limits) && i < |run|
    ensures Inv(run[i])
  {
    if i > 0 {
      RunInv(run, ops, i - 1, limits);
      StepInv(run[i - 1], ops[i - 1], limits);
    }
  }

  /** How many workers are occupied. */
  function OccupiedCount(ws: seq<Rec>): nat {
    if ws == [] then 0
    else OccupiedCount(ws[..|ws| - 1]) + if ws[|ws| - 1].state == Occupied then 1 else 0
  }

  lemma {:induction false} RunningSize(ws: seq<Rec>)
    requires forall i :: 0 <= i < |ws| ==> WorkerOk(ws[i])
    ensures |Running(ws)| == OccupiedCount(ws)
  {
    if ws == [] {
      assert Running(ws) == multiset{};
    } else {
      var init, last := ws[..|ws| - 1], ws[|ws| - 1];
      RunningSize(init);
      assert Ids(ws) == Ids(init) + [last.matchId];
      assert Running(ws) == Running(init) + if last.matchId == 0 then multiset{} else multiset{last.matchId};
    }
  }

  /**
   * Assignment conservation: the workers taken are the workers occupied now,
   * plus the results that found their worker, plus the health check's cancels;
   * and each match is taken, freed and canceled at most once, and never both
   * freed and canceled, nor either while it still runs.
   */
  lemma AssignmentConservation(run: seq<Pool>, ops: seq<Op>, i: nat, limits: Limits)
    requires IsRun(run, ops, limits) && i < |run|
    ensures var p := run[i];
            && |p.taken| == OccupiedCount(p.workers) + |p.freed| + |p.canceled|
            && forall m :: Running(p.workers)[m] + p.freed[m] + p.canceled[m] == p.taken[m] <= 1
  {
    RunInv(run, ops, i, limits);
    RunningSize(run[i].workers);
    forall m ensures run[i].taken[m] <= 1 {
      assert run[i].taken[m] <= run[i].offered[m];
    }
  }

  /** At most one live restart of a worker is current, and only while it restarts. */
  lemma OneCurrentRestart(run: seq<Pool>, ops: seq<Op>, i: nat, j: nat, k: nat, limits: Limits)
    requires IsRun(run, ops, limits) && i < |run|
    requires j < |run[i].tickets| && k < |run[i].tickets|
    requires run[i].tickets[j].worker == run[i].tickets[k].worker < |run[i].workers|
    requires var id := run[i].workers[run[i].tickets[j].worker].stateId;
             run[i].tickets[j].id == id == run[i].tickets[k].id
    ensures j == k && run[i].workers[run[i].tickets[j].worker].state == Restarting
  {
    RunInv(run, ops, i, limits);
  }

  /** A restart that is no longer current changes no worker; a current one frees exactly its own. */
  lemma RestartGuard(run: seq<Pool>, ops: seq<Op>, i: nat, k: nat, limits: Limits)
    requires IsRun(run, ops, limits) && i < |ops| && ops[i] == RestartDone(k)
    ensures var t := run[i].tickets[k];
            var ws, ws' := run[i].workers, run[i + 1].workers;
            if ws[t.worker].stateId != t.id then ws' == ws
            else ws[t.worker].state == Restarting && ws' == ws[t.worker := Freed(ws[t.worker])]
  {
    RunInv(run, ops, i, limits);
  }

  /**
   * A health check that gives up on a worker starts exactly one restart of it,
   * and hands that restart the state id which the worker has from then on.
   */
  lemma MarkStartsOneRestart(run: seq<Pool>, ops: seq<Op>, i: nat, w: nat, now: Time, limits: Limits)
    requires IsRun(run, ops, limits) && i < |ops| && ops[i] == Mark(w, now)
    ensures w < |run[i].workers| == |run[i + 1].workers|
    ensures run[i + 1].tickets == run[i].tickets + [Ticket(w, run[i + 1].workers[w].stateId)]
    ensures run[i + 1].workers[w].state == Restarting
    ensures run[i + 1].workers[w].stateId == run[i].workers[w].stateId + 1
    ensures forall v :: 0 <= v < |run[i].workers| && v != w ==> run[i + 1].workers[v] == run[i].workers[v]
  {
  }

  /**
   * That restart takes effect: if the worker's state has not changed when it
   * succeeds, whatever else happened in between, the worker is free again.
   */
  lemma UndisturbedRestartFrees(
    run: seq<Pool>, ops: seq<Op>, i: nat, j: nat, w: nat, now: Time, k: nat, limits: Limits)
    requires IsRun(run, ops, limits) && i < j < |ops| && ops[i] == Mark(w, now) && ops[j] == RestartDone(k)
    requires w < |run[i + 1].workers| && w < |run[j].workers|
    requires k < |run[j].tickets| && run[j].tickets[k] == Ticket(w, run[i + 1].workers[w].stateId)
    requires run[j].workers[w].stateId == run[i + 1].workers[w].stateId
    ensures run[j].workers[w].state == Restarting
    ensures w < |run[j + 1].workers| && run[j + 1].workers[w].state == Free
    ensures Ticket(w, run[i + 1].workers[w].stateId) !in run[j + 1].tickets
  {
    MarkStartsOneRestart(run, ops, i, w, now, limits);
    assert TicketsOk(run[j]) by {
      RunInv(run, ops, j, limits);
    }
  }

  /**
   * A restart that is under way is never forgotten, nor another put in its
   * place: it leaves the table exactly when it comes back, done or failed, and
   * only a health check adds one.
   */
  lemma RestartsAreKept(run: seq<Pool>, ops: seq<Op>, i: nat, limits: Limits)
    requires IsRun(run, ops, limits) && i < |ops|
    ensures var before, after := run[i].tickets, run[i + 1].tickets;
            match ops[i]
            case RestartDone(k) => k < |before| && after == before[..k] + before[k + 1..]
            case RestartFailed(k) => k < |before| && after == before[..k] + before[k + 1..]
            case Mark(_, _) => |after| == |before| + 1 && before <= after
            case _ => after == before
  {
  }

  /** One step: the same workers, none with a smaller state id. */
  predicate Grows(p: Pool, q: Pool) {
    |q.workers| == |p.workers| &&
    forall w :: 0 <= w < |p.workers| ==> p.workers[w].stateId <= q.workers[w].stateId
  }

  lemma StepGrows(p: Pool, op: Op, limits: Limits)
    requires Enabled(p, op)
    ensures Grows(p, Apply(p, op, limits))
  {
  }

  lemma {:induction false} GrowsThroughout(run: seq<Pool>, i: nat, j: nat)
    requires i <= j < |run|
    requires forall n :: i <= n < j ==> Grows(run[n], run[n + 1])
    ensures Grows(run[i], run[j])
    decreases j - i
  {
    if i < j {
      GrowsThroughout(run, i, j - 1);
      assert Grows(run[j - 1], run[j - 1 + 1]);
    }
  }

  /** State ids never go back. */
  lemma StateIdsGrow(run: seq<Pool>, ops: seq<Op>, i: nat, j: nat, limits: Limits)
    requires IsRun(run, ops, limits) && i <= j < |run|
    ensures Grows(run[i], run[j])
  {
    forall n | i <= n < j ensures Grows(run[n], run[n + 1]) {
      StepGrows(run[n], ops[n], limits);
    }
    GrowsThroughout(run, i, j);
  }

  /** Once stale, a restart stays stale: nothing it was given can come true again. */
  lemma StaleForever(run: seq<Pool>, ops: seq<Op>, i: nat, j: nat, t: Ticket, limits: Limits)
    requires IsRun(run, ops, limits) && i <= j < |run|
    requires t.worker < |run[i].workers| && t.id < run[i].workers[t.worker].stateId
    ensures t.worker < |run[j].workers| && t.id < run[j].workers[t.worker].stateId
  {
    StateIdsGrow(run, ops, i, j, limits);
  }

  // ----- Unique ownership -----

  /** A result touches no worker except one that is running a match with that id. */
  predicate TouchesOnlyItsMatch(ws: seq<Rec>, m: int, ws': seq<Rec>) {
    |ws'| == |ws| &&
    forall i :: 0 <= i < |ws| && ws'[i] != ws[i] ==> ws[i].state == Occupied && ws[i].matchId == m
  }

  /**
   * A result for `m` alters only the worker running `m`, if and only if `m` is
   * not 0 or no worker is without a match. A result that carries id 0 frees the
   * first worker that is idle or being restarted.
   */
  lemma ReleaseTouchesOnlyItsMatch(p: Pool, m: int, limits: Limits)
    requires Inv(p)
    ensures TouchesOnlyItsMatch(p.workers, m, Apply(p, Release(m), limits).workers)
            <==> m != 0 || forall i :: 0 <= i < |p.workers| ==> p.workers[i].state == Occupied
  {
    var ws := p.workers;
    var ws' := Apply(p, Release(m), limits).workers;
    match Holder(ws, m)
    case None =>
      assert ws' == ws;
      if m == 0 {
        forall i | 0 <= i < |ws| ensures ws[i].state == Occupied {
          assert ws[i].matchId != 0;
        }
      }
    case Some(i) =>
      assert ws'[i].stateId != ws[i].stateId;
  }

  /**
   * Which worker a result frees: after it nobody runs `m`, and every worker
   * that did not run `m` is as it was. A second result for `m` changes nothing.
   */
  lemma ReleaseFreesExactly(p: Pool, m: int, limits: Limits)
    requires Inv(p) && m >= 1
    ensures var ws' := Apply(p, Release(m), limits).workers;
            && |ws'| == |p.workers|
            && (forall i :: 0 <= i < |ws'| ==>
                  ws'[i] == if p.workers[i].matchId == m then Freed(p.workers[i]) else p.workers[i])
            && Apply(Apply(p, Release(m), limits), Release(m), limits).workers == ws'
  {
    var q := Apply(p, Release(m), limits);
    match Holder(p.workers, m)
    case None =>
    case Some(i) =>
      forall j | 0 <= j < |q.workers| ensures q.workers[j].matchId != m {
        if j != i && p.workers[j].matchId == m {
          assert false;
        }
      }
  }

  /** Two workers never run the same match, and only an occupied worker has one. */
  lemma UniqueOwner(run: seq<Pool>, ops: seq<Op>, i: nat, v: nat, w: nat, limits: Limits)
    requires IsRun(run, ops, limits) && i < |run|
    requires v < |run[i].workers| && w < |run[i].workers|
    ensures var ws := run[i].workers;
            && (ws[v].matchId != 0 <==> ws[v].state == Occupied)
            && (ws[v].matchId != 0 && ws[v].matchId == ws[w].matchId ==> v == w)
            && (ws[v].matchId != 0 ==> run[i].offered[ws[v].matchId] == 1)
  {
    RunInv(run, ops, i, limits);
    if run[i].workers[v].matchId != 0 {
      RunningCounts(run[i].workers, v);
      assert run[i].taken[run[i].workers[v].matchId] >= 1;
    }
  }

  // ----- Why the guard is there -----

  /** A restart goroutine that frees its worker without looking at the state id. */
  function UnguardedRestart(p: Pool, k: nat): Pool
    requires k < |p.tickets| && p.tickets[k].worker < |p.workers|
  {
    var w := p.tickets[k].worker;
    p.(workers := p.workers[w := Freed(p.workers[w])], tickets := Without(p.tickets, k))
  }

  /** The table of one worker in `GuardIsNeeded`, before each operation. */
  function OneWorker(n: nat, t: nat): Pool
    requires n <= 4
  {
    if n == 0 then Pool([FRESH], [], multiset{}, multiset{}, multiset{}, multiset{})
    else if n == 1 then
      Pool([Rec(Restarting, 1, Some(t), 0, 0)], [Ticket(0, 1)],
           multiset{}, multiset{}, multiset{}, multiset{})
    else if n == 2 then
      Pool([Rec(Restarting, 2, Some(t + t), 0, 0)], [Ticket(0, 1), Ticket(0, 2)],
           multiset{}, multiset{}, multiset{}, multiset{})
    else if n == 3 then
      Pool([Rec(Free, 3, None, 0, 0)], [Ticket(0, 1)], multiset{}, multiset{}, multiset{}, multiset{})
    else
      Pool([Rec(Occupied, 4, None, 1, 0)], [Ticket(0, 1)],
           multiset{1}, multiset{1}, multiset{}, multiset{})
  }

  lemma OneWorkerStart(t: nat)
    ensures Inv(OneWorker(0, t))
  {
    StartInv(1, multiset{});
    assert Start(1, multiset{}).workers == OneWorker(0, t).workers;
  }

  lemma OneWorkerMarks(limits: Limits)
    ensures var t := limits.restartTimeout;
            && OneWorker(1, t) == Apply(OneWorker(0, t), Mark(0, 0), limits)
            && OneWorker(2, t) == Apply(OneWorker(1, t), Mark(0, t), limits)
  {
  }

  lemma OneWorkerRestarts(limits: Limits)
    ensures var t := limits.restartTimeout;
            OneWorker(3, t) == Apply(OneWorker(2, t), RestartDone(1), limits)
  {
    assert Without([Ticket(0, 1), Ticket(0, 2)], 1) == [Ticket(0, 1)];
  }

  lemma OneWorkerTakes(limits: Limits)
    ensures var p := OneWorker(3, limits.restartTimeout);
            FreeWorker(p.workers) == Some(0) &&
            OneWorker(4, limits.restartTimeout) == Apply(p, Assign(1), limits)
  {
    var p := OneWorker(3, limits.restartTimeout);
    assert p.workers[0].state == Free;
    assert multiset{} + multiset{1} == multiset{1};
  }

  lemma UnguardedLosesTheMatch(t: nat)
    ensures !Conserved(UnguardedRestart(OneWorker(4, t), 0))
  {
    var q := UnguardedRestart(OneWorker(4, t), 0);
    assert Ids(q.workers) == [0];
    assert Running(q.workers)[1] == 0;
    assert q.taken[1] == 1;
  }

  /** The states of `GuardIsNeeded`. */
  function OneWorkerRun(t: nat): seq<Pool> {
    seq(5, i requires 0 <= i < 5 => OneWorker(i, t))
  }

  function OneWorkerOps(t: nat): seq<Op> {
    [Mark(0, 0), Mark(0, t), RestartDone(1), Assign(1)]
  }

  lemma OneWorkerIsRun(limits: Limits)
    ensures IsRun(OneWorkerRun(limits.restartTimeout), OneWorkerOps(limits.restartTimeout), limits)
  {
    OneWorkerStart(limits.restartTimeout);
    OneWorkerMarks(limits);
    OneWorkerRestarts(limits);
    OneWorkerTakes(limits);
  }

  /**
   * Without the state id check conservation fails: two overlapping restarts of
   * one worker, the newer one finishes, a match is assigned, and then the older
   * one would free the worker and lose the match. With the check the older one
   * is ignored.
   */
  lemma GuardIsNeeded(limits: Limits) returns (run: seq<Pool>, ops: seq<Op>)
    ensures IsRun(run, ops, limits)
    ensures var p := run[|ops|];
            && |p.tickets| == 1 && p.tickets[0].worker < |p.workers|
            && !Conserved(UnguardedRestart(p, 0))
            && Conserved(Apply(p, RestartDone(0), limits))
  {
    var t := limits.restartTimeout;
    run, ops := OneWorkerRun(t), OneWorkerOps(t);
    OneWorkerIsRun(limits);
    assert Inv(OneWorker(4, t)) by {
      RunInv(run, ops, 4, limits);
    }
    StepInv(OneWorker(4, t), RestartDone(0), limits);
    UnguardedLosesTheMatch(t);
  }
}

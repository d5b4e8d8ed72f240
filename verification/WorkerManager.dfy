/**
 * The worker manager's code that runs under `wm.mu`, on mutable workers. Each
 * method is proved to perform the critical sections that `Pool` and `Manager`
 * describe. Sends append to `channel`; a send that blocks is a matter of the
 * step machine in `Manager`.
 */
module WorkerManagers {
  import opened Base
  import opened Workers
  import opened Pool
  import M = Manager

  /** `strconv.Itoa` on an index: the name of a worker. */
  function Decimal(n: nat): (s: string)
    ensures s != []
  {
    if n < 10 then [DIGITS[n]] else Decimal(n / 10) + [DIGITS[n % 10]]
  }

  const DIGITS := "0123456789"

  lemma DigitsDiffer(i: nat, j: nat)
    requires i < 10 && j < 10 && DIGITS[i] == DIGITS[j]
    ensures i == j
  {
  }

  /** Different workers have different names, so an answer to a ping names one worker. */
  lemma {:induction false} NamesAreDistinct(a: nat, b: nat)
    requires Decimal(a) == Decimal(b)
    ensures a == b
    decreases a + b
  {
    var s, t := Decimal(a), Decimal(b);
    assert s[|s| - 1] == DIGITS[a % 10] && t[|t| - 1] == DIGITS[b % 10];
    DigitsDiffer(a % 10, b % 10);
    if a >= 10 && b >= 10 {
      assert s[..|s| - 1] == Decimal(a / 10) && t[..|t| - 1] == Decimal(b / 10);
      NamesAreDistinct(a / 10, b / 10);
    }
  }

  datatype AssignError = NoFreeWorker | NoGamePort | JobRejected

  datatype Assignment = Accepted(server: ServerInfo) | Refused(error: AssignError)

  /** What `GetResult`, unmarshalling and `Ack` come to. */
  datatype Fetch = NotFetched | NotReadable | NotAcked(res: Result) | Fetched(res: Result)

  /** The two clock readings of a health check at one worker. */
  datatype Clock = Clock(checkedAt: Time, markedAt: Time)

  // ----- One worker of a health check -----

  function CheckOne(p: Pool, i: nat, pong: bool, clock: Clock, limits: Limits): Pool
    requires i < |p.workers|
  {
    var seen := AfterPong(p, i, pong);
    if Healthy(seen.workers[i], clock.checkedAt, limits) then seen
    else AfterMark(seen, i, clock.markedAt, limits)
  }

  function CancelOne(p: Pool, i: nat, pong: bool, clock: Clock, limits: Limits): seq<Result>
    requires i < |p.workers|
  {
    var w := Ponged(p.workers[i], pong);
    if !Healthy(w, clock.checkedAt, limits) && w.state == Occupied then [M.CancelOf(w.matchId)] else []
  }

  /** A whole health check, up to worker `n`: the table it leaves and the cancels it sends. */
  function CheckAll(p: Pool, pongs: set<nat>, clocks: seq<Clock>, n: nat, limits: Limits): (q: Pool)
    requires n <= |p.workers| == |clocks|
    ensures |q.workers| == |p.workers|
  {
    if n == 0 then p
    else CheckOne(CheckAll(p, pongs, clocks, n - 1, limits), n - 1, n - 1 in pongs, clocks[n - 1], limits)
  }

  function CancelAll(p: Pool, pongs: set<nat>, clocks: seq<Clock>, n: nat, limits: Limits): seq<Result>
    requires n <= |p.workers| == |clocks|
  {
    if n == 0 then []
    else
      CancelAll(p, pongs, clocks, n - 1, limits)
      + CancelOne(CheckAll(p, pongs, clocks, n - 1, limits), n - 1, n - 1 in pongs, clocks[n - 1], limits)
  }

  lemma CancelsOneMore(
    start: Pool, pongs: set<nat>, clocks: seq<Clock>, n: nat, limits: Limits, queued: seq<Result>, cancels: seq<Result>)
    requires n < |start.workers| == |clocks|
    requires cancels == CancelOne(CheckAll(start, pongs, clocks, n, limits), n, n in pongs, clocks[n], limits)
    ensures queued + CancelAll(start, pongs, clocks, n, limits) + cancels
            == queued + CancelAll(start, pongs, clocks, n + 1, limits)
  {
  }

  lemma OneIsChecked(p: Pool, n: nat, i: nat, pong: bool, clock: Clock, limits: Limits)
    requires n < |p.workers| && i < |p.workers|
    ensures |CheckOne(p, n, pong, clock, limits).workers| == |p.workers|
    ensures CheckOne(p, n, pong, clock, limits).workers[i] ==
            if i != n then p.workers[i] else Checked(p.workers[i], pong, clock, limits)
  {
  }

  /** A worker after a check. */
  function Checked(w: Rec, pong: bool, clock: Clock, limits: Limits): Rec {
    if Healthy(Ponged(w, pong), clock.checkedAt, limits) then Ponged(w, pong) else Marked(w, clock.markedAt, limits)
  }

  /** Every worker is visited, once: it keeps what the ping makes of it, or is marked for a restart. */
  lemma {:induction false} EachIsChecked(
    p: Pool, pongs: set<nat>, clocks: seq<Clock>, n: nat, i: nat, limits: Limits)
    requires n <= |p.workers| == |clocks| && i < |p.workers|
    ensures CheckAll(p, pongs, clocks, n, limits).workers[i] ==
            if i >= n then p.workers[i] else Checked(p.workers[i], i in pongs, clocks[i], limits)
  {
    if n > 0 {
      EachIsChecked(p, pongs, clocks, n - 1, i, limits);
      var q := CheckAll(p, pongs, clocks, n - 1, limits);
      OneIsChecked(q, n - 1, i, n - 1 in pongs, clocks[n - 1], limits);
      assert CheckAll(p, pongs, clocks, n, limits) == CheckOne(q, n - 1, n - 1 in pongs, clocks[n - 1], limits);
    }
  }

  /** The check took a worker off match `m`. */
  ghost predicate GaveUpOn(before: seq<Rec>, after: seq<Rec>, m: int)
    requires |after| == |before|
  {
    exists i :: 0 <= i < |before| &&
      before[i].state == Occupied && before[i].matchId == m && after[i].state == Restarting
  }

  /** A failed result goes out for each match that a worker was taken off, and no other. */
  ghost predicate CancelsTheLost(before: seq<Rec>, after: seq<Rec>, cancels: seq<Result>)
    requires |after| == |before|
  {
    && (forall k :: 0 <= k < |cancels| ==>
          !cancels[k].success && cancels[k].details == "{}" && GaveUpOn(before, after, cancels[k].matchId))
    && (forall i :: 0 <= i < |before| && before[i].state == Occupied && after[i].state != Occupied ==>
          Result(false, before[i].matchId, "{}") in cancels)
  }

  ghost predicate LostUpTo(p: Pool, pongs: set<nat>, clocks: seq<Clock>, n: nat, limits: Limits)
    requires n <= |p.workers| == |clocks|
  {
    CancelsTheLost(p.workers, CheckAll(p, pongs, clocks, n, limits).workers, CancelAll(p, pongs, clocks, n, limits))
  }

  lemma {:induction false} LostAreCanceled(p: Pool, pongs: set<nat>, clocks: seq<Clock>, n: nat, limits: Limits)
    requires n <= |p.workers| == |clocks|
    ensures LostUpTo(p, pongs, clocks, n, limits)
  {
    if n > 0 {
      LostAreCanceled(p, pongs, clocks, n - 1, limits);
      OneMoreLost(p, pongs, clocks, n - 1, limits);
    }
  }

  lemma OneMoreLost(p: Pool, pongs: set<nat>, clocks: seq<Clock>, n: nat, limits: Limits)
    requires n < |p.workers| == |clocks|
    requires LostUpTo(p, pongs, clocks, n, limits)
    ensures LostUpTo(p, pongs, clocks, n + 1, limits)
  {
    EachIsChecked(p, pongs, clocks, n, n, limits);
    var q := CheckAll(p, pongs, clocks, n, limits);
    LostAddUp(p.workers, q.workers, CheckAll(p, pongs, clocks, n + 1, limits).workers, n,
              CancelAll(p, pongs, clocks, n, limits), CancelOne(q, n, n in pongs, clocks[n], limits));
  }

  lemma LostAddUp(
    before: seq<Rec>, mid: seq<Rec>, after: seq<Rec>, n: nat, cancels: seq<Result>, more: seq<Result>)
    requires |after| == |mid| == |before| && CancelsTheLost(before, mid, cancels)
    requires n < |before| && mid[n] == before[n]
    requires forall i :: 0 <= i < |mid| && i != n ==> after[i] == mid[i]
    requires more == if after[n].state == Restarting && mid[n].state == Occupied
                     then [Result(false, mid[n].matchId, "{}")] else []
    requires after[n].state == mid[n].state || after[n].state == Restarting
    ensures CancelsTheLost(before, after, cancels + more)
  {
    forall m | GaveUpOn(before, mid, m) ensures GaveUpOn(before, after, m) {
      var i :| 0 <= i < |before| && before[i].state == Occupied && before[i].matchId == m && mid[i].state == Restarting;
      assert i != n;
    }
    if before[n].state == Occupied && after[n].state == Restarting {
      assert GaveUpOn(before, after, before[n].matchId);
    }
  }

  /** Each worker keeps what the ping makes of it if it is healthy, and is marked for a restart if not. */
  ghost predicate ChecksEach(before: seq<Rec>, after: seq<Rec>, pongs: set<nat>, clocks: seq<Clock>, limits: Limits)
    requires |before| == |clocks|
  {
    |after| == |before| &&
    forall i :: 0 <= i < |before| ==>
      var w := Ponged(before[i], i in pongs);
      after[i] == if Healthy(w, clocks[i].checkedAt, limits) then w else Marked(before[i], clocks[i].markedAt, limits)
  }

  lemma CheckIsThorough(p: Pool, pongs: set<nat>, clocks: seq<Clock>, limits: Limits)
    requires |p.workers| == |clocks|
    ensures var after := CheckAll(p, pongs, clocks, |p.workers|, limits).workers;
            && ChecksEach(p.workers, after, pongs, clocks, limits)
            && CancelsTheLost(p.workers, after, CancelAll(p, pongs, clocks, |p.workers|, limits))
  {
    forall i | 0 <= i < |p.workers|
      ensures var w := Ponged(p.workers[i], i in pongs);
              CheckAll(p, pongs, clocks, |p.workers|, limits).workers[i] ==
              if Healthy(w, clocks[i].checkedAt, limits) then w else Marked(p.workers[i], clocks[i].markedAt, limits)
    {
      EachIsChecked(p, pongs, clocks, |p.workers|, i, limits);
    }
    LostAreCanceled(p, pongs, clocks, |p.workers|, limits);
  }

  /** The workers are those of the first containers, in order, each named after its index. */
  ghost predicate NamedAfter(workers: seq<Worker>, containers: seq<Option<string>>) {
    |workers| <= |containers| &&
    forall i :: 0 <= i < |workers| ==>
      workers[i].id == Decimal(i) && Some(workers[i].containerId) == containers[i]
  }

  lemma OneMoreNamed(workers: seq<Worker>, worker: Worker, containers: seq<Option<string>>)
    requires NamedAfter(workers, containers) && |workers| < |containers|
    requires worker.id == Decimal(|workers|) && Some(worker.containerId) == containers[|workers|]
    ensures NamedAfter(workers + [worker], containers)
  {
  }

  lemma NamesDiffer(workers: seq<Worker>, containers: seq<Option<string>>)
    requires NamedAfter(workers, containers)
    ensures forall i, j :: 0 <= i < j < |workers| ==> workers[i].id != workers[j].id
  {
    forall i, j | 0 <= i < j < |workers| ensures workers[i].id != workers[j].id {
      if workers[i].id == workers[j].id {
        NamesAreDistinct(i, j);
      }
    }
  }

  lemma OneMoreFree(n: nat)
    ensures Start(n + 1, multiset{}) == Start(n, multiset{}).(workers := Start(n, multiset{}).workers + [FRESH])
  {
  }

  class WorkerManager {
    const limits: Limits
    const publicHost: string

    var workers: seq<Worker>
    var tickets: seq<Ticket>
    var channel: seq<Result>
    var signals: nat

    /** The account of the table that the methods keep; its workers and tickets are the real ones. */
    ghost var table: Pool

    ghost predicate Valid()
      reads this, workers
    {
      && (forall i, j :: 0 <= i < j < |workers| ==> workers[i] != workers[j])
      && (forall i :: 0 <= i < |workers| ==> workers[i].limits == limits)
      && |table.workers| == |workers|
      && (forall i :: 0 <= i < |workers| ==> table.workers[i] == workers[i].View())
      && table.tickets == tickets
    }

    constructor (limits: Limits, publicHost: string)
      ensures this.limits == limits && this.publicHost == publicHost
      ensures Valid() && workers == [] && channel == [] && signals == 0
      ensures table == Start(0, multiset{})
    {
      this.limits, this.publicHost := limits, publicHost;
      workers, tickets, channel, signals := [], [], [], 0;
      table := Start(0, multiset{});
    }

    /** `containers` is what `SpawnContainer` returns for each worker, None where it fails. */
    method StartWorkers(containers: seq<Option<string>>) returns (ok: bool)
      requires Valid() && workers == [] && table == Start(0, multiset{})
      modifies this
      ensures ok <==> forall i :: 0 <= i < |containers| ==> containers[i].Some?
      ensures Valid() && channel == old(channel) && signals == old(signals) && fresh(workers)
      ensures table == Start(|workers|, multiset{})
      ensures NamedAfter(workers, containers) && (ok <==> |workers| == |containers|)
      ensures forall i, j :: 0 <= i < j < |workers| ==> workers[i].id != workers[j].id
    {
      while |workers| < |containers|
        invariant Valid() && channel == old(channel) && signals == old(signals) && fresh(workers)
        invariant table == Start(|workers|, multiset{}) && NamedAfter(workers, containers)
      {
        if containers[|workers|].None? {
          break;
        }
        AddWorker(containers, containers[|workers|].value);
      }
      NamesDiffer(workers, containers);
      return |workers| == |containers|;
    }

    /** Appends a free worker for the next container, named after its index. */
    method AddWorker(ghost containers: seq<Option<string>>, containerId: string)
      requires Valid() && table == Start(|workers|, multiset{})
      requires NamedAfter(workers, containers) && |workers| < |containers| && containers[|workers|] == Some(containerId)
      modifies this`workers, this`table
      ensures Valid() && |workers| == |old(workers)| + 1 && fresh(set w | w in workers && w !in old(workers))
      ensures table == Start(|workers|, multiset{}) && NamedAfter(workers, containers)
    {
      var worker := new Worker(Decimal(|workers|), containerId, limits);
      table := table.(workers := table.workers + [FRESH]);
      OneMoreFree(|workers|);
      OneMoreNamed(workers, worker, containers);
      workers := workers + [worker];
    }

    method GetFreeWorker() returns (r: Option<nat>)
      requires Valid()
      ensures r == FreeWorker(table.workers)
    {
      var i := 0;
      while i < |workers|
        invariant 0 <= i <= |workers|
        invariant forall j :: 0 <= j < i ==> table.workers[j].state != Free
      {
        if workers[i].state == Free {
          return Some(i);
        }
        i := i + 1;
      }
      return None;
    }

    method GetWorkerByMatchID(m: int) returns (r: Option<nat>)
      requires Valid()
      ensures r == Holder(table.workers, m)
    {
      var i := 0;
      while i < |workers|
        invariant 0 <= i <= |workers|
        invariant forall j :: 0 <= j < i ==> table.workers[j].matchId != m
      {
        if workers[i].matchId == m {
          return Some(i);
        }
        i := i + 1;
      }
      return None;
    }

    /** `port` is what `GetGamePort` returns, `jobOk` whether `AssignJob` succeeds. */
    method AssignMatch(m: int, port: Option<string>, jobOk: bool) returns (r: Assignment)
      requires Valid()
      modifies this, workers
      ensures Valid() && workers == old(workers) && channel == old(channel) && signals == old(signals)
      ensures tickets == old(tickets)
      ensures r == if FreeWorker(old(table.workers)).None? then Refused(NoFreeWorker)
                   else if port.None? then Refused(NoGamePort)
                   else if !jobOk then Refused(JobRejected)
                   else Accepted(ServerInfo(publicHost, port.value))
      ensures table == if r.Accepted? then Apply(old(table), Assign(m), limits)
                       else if r == Refused(JobRejected) then Apply(old(table), OfferFailed(m), limits)
                       else old(table)
      ensures table.workers ==
              if r.Accepted?
              then
                var i := FreeWorker(old(table.workers)).value;
                old(table.workers)[i := Rec(Occupied, old(table.workers)[i].stateId + 1, None, m, 0)]
              else old(table.workers)
    {
      var i := GetFreeWorker();
      if i.None? {
        return Refused(NoFreeWorker);
      }
      if port.None? {
        return Refused(NoGamePort);
      }
      if !jobOk {
        table := Apply(table, OfferFailed(m), limits);
        return Refused(JobRejected);
      }
      table := Apply(table, Assign(m), limits);
      var _ := workers[i.value].SetOccupied(m);
      return Accepted(ServerInfo(publicHost, port.value));
    }

    /** Takes the worker off match `m`, if one runs it. */
    method FreeMatch(m: int)
      requires Valid()
      modifies this, workers
      ensures Valid() && workers == old(workers) && channel == old(channel) && tickets == old(tickets)
      ensures table == Apply(old(table), Release(m), limits)
      ensures table.workers ==
              match Holder(old(table.workers), m)
              case None => old(table.workers)
              case Some(i) => old(table.workers)[i := Rec(Free, old(table.workers)[i].stateId + 1, None, 0, 0)]
      ensures signals == old(signals) + if Holder(old(table.workers), m).Some? then 1 else 0
    {
      var i := GetWorkerByMatchID(m);
      table := Apply(table, Release(m), limits);
      if i.Some? {
        var _ := workers[i.value].SetFree();
        signals := signals + 1;
      }
    }

    /** A result is sent on exactly when it was acknowledged, before its worker is freed. */
    method HandleResults(f: Fetch) returns (ok: bool)
      requires Valid()
      modifies this, workers
      ensures Valid() && workers == old(workers) && tickets == old(tickets)
      ensures ok <==> f.Fetched?
      ensures channel == if f.Fetched? then old(channel) + [f.res] else old(channel)
      ensures table == if f.Fetched? then Apply(old(table), Release(f.res.matchId), limits) else old(table)
      ensures signals == old(signals) +
                         if f.Fetched? && Holder(old(table.workers), f.res.matchId).Some? then 1 else 0
    {
      if !f.Fetched? {
        return false;
      }
      channel := channel + [f.res];
      FreeMatch(f.res.matchId);
      return true;
    }

    /** `pongs` is what `GetWorkersPong` returns, None if it fails. */
    method HealthCheck(pongs: Option<set<nat>>, clocks: seq<Clock>) returns (ok: bool)
      requires Valid() && |clocks| == |workers|
      modifies this, workers
      ensures Valid() && workers == old(workers) && signals == old(signals)
      ensures ok <==> pongs.Some?
      ensures pongs.None? ==> table == old(table) && channel == old(channel)
      ensures pongs.Some? ==>
                && table == CheckAll(old(table), pongs.value, clocks, |workers|, limits)
                && channel == old(channel) + CancelAll(old(table), pongs.value, clocks, |workers|, limits)
      ensures pongs.Some? ==>
                && |table.workers| == |old(table.workers)| && old(channel) <= channel
                && CancelsTheLost(old(table.workers), table.workers, channel[|old(channel)|..])
      ensures pongs.Some? ==> ChecksEach(old(table.workers), table.workers, pongs.value, clocks, limits)
    {
      if pongs.None? {
        return false;
      }
      CheckIsThorough(table, pongs.value, clocks, limits);
      CheckWorkers(pongs.value, clocks);
      return true;
    }

    /** The check has come to worker `n` since the table was `start` and the channel `queued`. */
    ghost predicate Reached(start: Pool, queued: seq<Result>, pongs: set<nat>, clocks: seq<Clock>, n: nat)
      reads this
    {
      && n <= |start.workers| == |clocks| == |workers|
      && table == CheckAll(start, pongs, clocks, n, limits)
      && channel == queued + CancelAll(start, pongs, clocks, n, limits)
    }

    /** The loop of the health check. */
    method CheckWorkers(pongs: set<nat>, clocks: seq<Clock>)
      requires Valid() && |clocks| == |workers|
      modifies this, workers
      ensures Valid() && workers == old(workers) && signals == old(signals)
      ensures Reached(old(table), old(channel), pongs, clocks, |workers|)
    {
      ghost var start, queued := table, channel;
      var i := 0;
      while i < |workers|
        invariant 0 <= i <= |workers|
        invariant Valid() && workers == old(workers) && signals == old(signals)
        invariant Reached(start, queued, pongs, clocks, i)
      {
        CheckNext(i, pongs, clocks, start, queued);
        i := i + 1;
      }
    }

    method CheckNext(
      i: nat, pongs: set<nat>, clocks: seq<Clock>, ghost start: Pool, ghost queued: seq<Result>)
      requires Valid() && i < |workers| && Reached(start, queued, pongs, clocks, i)
      modifies this, workers
      ensures Valid() && workers == old(workers) && signals == old(signals)
      ensures Reached(start, queued, pongs, clocks, i + 1)
    {
      ghost var cancels := CancelOne(table, i, i in pongs, clocks[i], limits);
      CheckWorker(i, i in pongs, clocks[i]);
      CancelsOneMore(start, pongs, clocks, i, limits, queued, cancels);
    }

    /** The body of the health check's loop. */
    method CheckWorker(i: nat, pong: bool, clock: Clock)
      requires Valid() && i < |workers|
      modifies this, workers
      ensures Valid() && workers == old(workers) && signals == old(signals)
      ensures table == CheckOne(old(table), i, pong, clock, limits)
      ensures channel == old(channel) + CancelOne(old(table), i, pong, clock, limits)
      ensures if workers[i].stateId == old(workers[i].stateId)
              then tickets == old(tickets) && channel == old(channel) && workers[i].state == old(workers[i].state)
              else
                && workers[i].state == Restarting && workers[i].stateId == old(workers[i].stateId) + 1
                && tickets == old(tickets) + [Ticket(i, workers[i].stateId)]
                && channel == old(channel) + if old(workers[i].state) == Occupied
                                             then [Result(false, old(workers[i].matchId), "{}")] else []
    {
      var worker := workers[i];
      worker.HandlePong(pong);
      table := AfterPong(table, i, pong);
      if worker.IsHealthy(clock.checkedAt) {
        return;
      }
      if worker.state == Occupied {
        channel := channel + [M.CancelOf(worker.matchId)];
      }
      table := AfterMark(table, i, clock.markedAt, limits);
      var stateId := worker.SetRestarting(clock.markedAt);
      tickets := tickets + [Ticket(i, stateId)];
    }

    /** The restart goroutine `k`; `restarted` is whether `RestartContainer` succeeds. */
    method RestartWorker(k: nat, restarted: bool) returns (stale: bool)
      requires Valid() && k < |tickets| && tickets[k].worker < |workers|
      modifies this, workers
      ensures Valid() && workers == old(workers) && channel == old(channel)
      ensures table == Apply(old(table), if restarted then RestartDone(k) else RestartFailed(k), limits)
      ensures stale <==> restarted && old(table.workers[tickets[k].worker].stateId) != old(tickets[k].id)
      ensures signals == old(signals) + if restarted && !stale then 1 else 0
      ensures restarted && !stale ==> workers[old(tickets[k].worker)].state == Free
      ensures !restarted || stale ==> table.workers == old(table.workers)
      ensures tickets == old(tickets)[..k] + old(tickets)[k + 1..]
    {
      var t := tickets[k];
      table := Apply(table, if restarted then RestartDone(k) else RestartFailed(k), limits);
      tickets := Without(tickets, k);
      if !restarted {
        return false;
      }
      if workers[t.worker].stateId != t.id {
        return true;
      }
      var _ := workers[t.worker].SetFree();
      signals := signals + 1;
      return false;
    }
  }

  // ----- The class and the step machine -----

  predicate Feasible(c: M.Config, m: M.Mgr, acts: seq<M.Act>)
    decreases |acts|
  {
    acts == [] || (M.Enabled(c, m, acts[0]) && Feasible(c, M.Next(c, m, acts[0]), acts[1..]))
  }

  function Outcome(c: M.Config, m: M.Mgr, acts: seq<M.Act>): M.Mgr
    requires Feasible(c, m, acts)
    decreases |acts|
  {
    if acts == [] then m else Outcome(c, M.Next(c, m, acts[0]), acts[1..])
  }

  /** The steps of a health check at the worker it has come to. */
  function CheckActs(m: M.Mgr, clock: Clock, limits: Limits): seq<M.Act>
    requires m.health.Visiting? && m.health.next < |m.pool.workers|
  {
    var w := Ponged(m.pool.workers[m.health.next], m.health.next in m.health.pongs);
    if Healthy(w, clock.checkedAt, limits) then [M.Visit(clock.checkedAt)]
    else if w.state == Occupied then [M.Visit(clock.checkedAt), M.CancelPush, M.Mark(clock.markedAt)]
    else [M.Visit(clock.checkedAt), M.Mark(clock.markedAt)]
  }

  lemma OneStep(c: M.Config, m: M.Mgr, a: M.Act)
    requires M.Enabled(c, m, a)
    ensures Feasible(c, m, [a]) && Outcome(c, m, [a]) == M.Next(c, m, a)
  {
    assert [a][1..] == [];
  }

  lemma MoreSteps(c: M.Config, m: M.Mgr, a: M.Act, acts: seq<M.Act>)
    requires M.Enabled(c, m, a) && Feasible(c, M.Next(c, m, a), acts)
    ensures Feasible(c, m, [a] + acts) && Outcome(c, m, [a] + acts) == Outcome(c, M.Next(c, m, a), acts)
  {
    assert ([a] + acts)[1..] == acts;
  }

  /** What the machine does at a worker that the check finds unhealthy. */
  lemma UnhealthyVisit(c: M.Config, m: M.Mgr, clock: Clock)
    requires m.health.Visiting? && m.health.next < |m.pool.workers|
    ensures var i := m.health.next;
            var p := Apply(m.pool, Pong(i, i in m.health.pongs), c.limits);
            && M.Enabled(c, m, M.Visit(clock.checkedAt))
            && M.Next(c, m, M.Visit(clock.checkedAt)) ==
               m.(pool := p,
                  health := if Healthy(p.workers[i], clock.checkedAt, c.limits) then M.Visiting(m.health.pongs, i + 1)
                            else if p.workers[i].state == Occupied then M.Canceling(m.health.pongs, i)
                            else M.Marking(m.health.pongs, i))
  {
  }

  lemma MarkSteps(c: M.Config, m: M.Mgr, later: Time)
    requires m.health.Marking? && m.health.next < |m.pool.workers|
    ensures M.Enabled(c, m, M.Mark(later))
    ensures M.Next(c, m, M.Mark(later)) ==
            m.(pool := Apply(m.pool, Mark(m.health.next, later), c.limits),
               health := M.Visiting(m.health.pongs, m.health.next + 1))
  {
  }

  lemma CancelSteps(c: M.Config, m: M.Mgr)
    requires m.health.Canceling? && m.health.next < |m.pool.workers| && |m.chan| < c.capacity
    ensures M.Enabled(c, m, M.CancelPush)
    ensures var res := M.CancelOf(m.pool.workers[m.health.next].matchId);
            M.Next(c, m, M.CancelPush) ==
            m.(chan := m.chan + [res], enqueued := m.enqueued + [M.Entry(M.FromHealth, res)],
               health := M.Marking(m.health.pongs, m.health.next))
  {
  }

  /** These steps do at one worker what one turn of the health check's loop does. */
  predicate IsTurn(c: M.Config, m: M.Mgr, clock: Clock, acts: seq<M.Act>)
    requires m.health.Visiting? && m.health.next < |m.pool.workers|
  {
    && Feasible(c, m, acts)
    && var n := Outcome(c, m, acts);
       var i, pong := m.health.next, m.health.next in m.health.pongs;
       && n.pool == CheckOne(m.pool, i, pong, clock, c.limits)
       && n.chan == m.chan + CancelOne(m.pool, i, pong, clock, c.limits)
       && n.health == M.Visiting(m.health.pongs, i + 1)
       && n.mu == m.mu && n.waiter == m.waiter && n.inbox == m.inbox && n.saver == m.saver
  }

  lemma MarkTurn(c: M.Config, m: M.Mgr, clock: Clock)
    requires m.health.Visiting? && m.health.next < |m.pool.workers|
    requires M.Next(c, m, M.Visit(clock.checkedAt)).health.Marking?
    ensures IsTurn(c, m, clock, [M.Visit(clock.checkedAt), M.Mark(clock.markedAt)])
  {
    UnhealthyVisit(c, m, clock);
    var m1 := M.Next(c, m, M.Visit(clock.checkedAt));
    MarkSteps(c, m1, clock.markedAt);
    TwoSteps(c, m, M.Visit(clock.checkedAt), M.Mark(clock.markedAt));
  }

  lemma CancelTurn(c: M.Config, m: M.Mgr, clock: Clock)
    requires m.health.Visiting? && m.health.next < |m.pool.workers| && |m.chan| < c.capacity
    requires M.Next(c, m, M.Visit(clock.checkedAt)).health.Canceling?
    ensures IsTurn(c, m, clock, [M.Visit(clock.checkedAt), M.CancelPush, M.Mark(clock.markedAt)])
  {
    UnhealthyVisit(c, m, clock);
    var visit, mark := M.Visit(clock.checkedAt), M.Mark(clock.markedAt);
    var m1 := M.Next(c, m, visit);
    CancelSteps(c, m1);
    MarkSteps(c, M.Next(c, m1, M.CancelPush), clock.markedAt);
    TwoSteps(c, m1, M.CancelPush, mark);
    MoreSteps(c, m, visit, [M.CancelPush, mark]);
    assert [visit, M.CancelPush, mark] == [visit] + [M.CancelPush, mark];
  }

  /**
   * One turn of the health check's loop is exactly the steps the machine takes
   * for one worker, provided the channel has room for a cancel.
   */
  lemma CheckIsSteps(c: M.Config, m: M.Mgr, clock: Clock)
    requires m.health.Visiting? && m.health.next < |m.pool.workers| && |m.chan| < c.capacity
    ensures IsTurn(c, m, clock, CheckActs(m, clock, c.limits))
  {
    UnhealthyVisit(c, m, clock);
    var m1 := M.Next(c, m, M.Visit(clock.checkedAt));
    if m1.health.Visiting? {
      OneStep(c, m, M.Visit(clock.checkedAt));
    } else if m1.health.Marking? {
      MarkTurn(c, m, clock);
    } else {
      CancelTurn(c, m, clock);
    }
  }

  lemma TwoSteps(c: M.Config, m: M.Mgr, a: M.Act, b: M.Act)
    requires M.Enabled(c, m, a) && M.Enabled(c, M.Next(c, m, a), b)
    ensures Feasible(c, m, [a, b]) && Outcome(c, m, [a, b]) == M.Next(c, M.Next(c, m, a), b)
  {
    OneStep(c, M.Next(c, m, a), b);
    MoreSteps(c, m, a, [b]);
    assert [a, b] == [a] + [b];
  }

  /**
   * A result that is fetched and acknowledged takes the machine the steps
   * Deliver, Ack, Push and Release: they queue it, take the worker off its
   * match, and signal the waiter if there was one, as `HandleResults` does in
   * place.
   */
  lemma ResultIsSteps(c: M.Config, m: M.Mgr, res: Result)
    requires m.inbox == M.Listening && m.mu == M.Nobody && |m.chan| < c.capacity
    ensures var acts := [M.Deliver(res), M.Ack, M.Push, M.Release];
            && Feasible(c, m, acts)
            && Outcome(c, m, acts) ==
               m.(pool := Apply(m.pool, Release(res.matchId), c.limits),
                  inbox := M.Listening, chan := m.chan + [res],
                  acked := m.acked + [res], enqueued := m.enqueued + [M.Entry(M.FromInbox, res)],
                  waiter := if Holder(m.pool.workers, res.matchId).Some? then M.Signal(m.waiter) else m.waiter)
  {
    var m1 := M.Next(c, m, M.Deliver(res));
    var m2 := M.Next(c, m1, M.Ack);
    TwoSteps(c, m2, M.Push, M.Release);
    MoreSteps(c, m1, M.Ack, [M.Push, M.Release]);
    MoreSteps(c, m, M.Deliver(res), [M.Ack] + [M.Push, M.Release]);
    assert [M.Deliver(res), M.Ack, M.Push, M.Release] == [M.Deliver(res)] + ([M.Ack] + [M.Push, M.Release]);
  }

  /** An assignment is one step, and so is one that the worker refuses. */
  lemma AssignIsStep(c: M.Config, m: M.Mgr, id: int)
    requires m.mu == M.Nobody && FreeWorker(m.pool.workers).Some?
    ensures M.Enabled(c, m, M.AssignOk(id)) && M.Enabled(c, m, M.AssignLost(id))
    ensures M.Next(c, m, M.AssignOk(id)) == m.(pool := Apply(m.pool, Assign(id), c.limits))
    ensures M.Next(c, m, M.AssignLost(id)) == m.(pool := Apply(m.pool, OfferFailed(id), c.limits))
  {
  }

  /** A restart that comes back is one step, and signals the waiter if and only if it is not stale. */
  lemma RestartIsStep(c: M.Config, m: M.Mgr, k: nat)
    requires m.mu == M.Nobody && Enabled(m.pool, RestartDone(k))
    ensures M.Enabled(c, m, M.RestartDone(k)) && M.Enabled(c, m, M.RestartFailed(k))
    ensures var t := m.pool.tickets[k];
            M.Next(c, m, M.RestartDone(k)) ==
            m.(pool := Apply(m.pool, RestartDone(k), c.limits),
               waiter := if m.pool.workers[t.worker].stateId == t.id then M.Signal(m.waiter) else m.waiter)
    ensures M.Next(c, m, M.RestartFailed(k)) == m.(pool := Apply(m.pool, RestartFailed(k), c.limits))
  {
  }
}

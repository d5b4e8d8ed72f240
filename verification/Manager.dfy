/**
 * The worker manager as a step machine. One step is one critical section of
 * `wm.mu`, one send to or receive from `saveResultChan`, one adapter call, or
 * one step of the waiter in `WaitForFreeWorker`. A health check keeps `mu` over
 * several steps, because it may block on the channel while it holds it.
 */
module Manager {
  import opened Base
  import opened Workers
  import Pool

  /** `capacity` is the size of `saveResultChan`. */
  datatype Config = Config(limits: Limits, capacity: nat)

  datatype Owner = Nobody | ByWaiter | ByHealth

  /** `Checked` is the point between reading `ctx.Err()` as nil and `Wait`. */
  datatype Waiter = Outside | Locked | Checked | Asleep(signaled: bool)

  /** `next` is the index of the worker the check has come to. */
  datatype Health =
    | Idle
    | Ready(pongs: set<nat>)
    | Visiting(pongs: set<nat>, next: nat)
    | Canceling(pongs: set<nat>, next: nat)
    | Marking(pongs: set<nat>, next: nat)

  datatype Inbox = Listening | Got(res: Result) | Acked(res: Result) | Pushed(res: Result)

  /** `Gone` is after the loop has returned on a canceled context. */
  datatype Saver = Resting | Removing(res: Result) | Saving(res: Result) | Gone

  datatype Source = FromInbox | FromHealth

  datatype Entry = Entry(source: Source, res: Result)

  /**
   * `armed` says that the waiter's AfterFunc is registered and has not started;
   * `wakers` counts AfterFunc goroutines that started and have not signaled yet.
   * The last four fields are logs: what entered the channel, what the saver took
   * out, what it finished, and what was acknowledged to the broker.
   */
  datatype Mgr = Mgr(
    pool: Pool.Pool,
    mu: Owner,
    waiter: Waiter,
    armed: bool,
    wakers: nat,
    canceled: bool,
    chan: seq<Result>,
    health: Health,
    inbox: Inbox,
    saver: Saver,
    enqueued: seq<Entry>,
    received: seq<Result>,
    done: seq<Result>,
    acked: seq<Result>)

  datatype Act =
    | Cancel
    | WaitLock
    | WaitCheck
    | WaitSleep
    | WaitWake
    | AfterFunc
    | AssignOk(matchId: int)
    | AssignLost(matchId: int)
    | Deliver(res: Result)
    | Drop
    | Ack
    | Push
    | Release
    | Ping(pongs: set<nat>)
    | HealthLock
    | Visit(now: Time)
    | CancelPush
    | Mark(now: Time)
    | HealthUnlock
    | RestartDone(ticket: nat)
    | RestartFailed(ticket: nat)
    | Receive
    | Removed
    | Saved
    | SaverExit

  // ----- Steps -----

  function Start(n: nat, offered: multiset<int>): Mgr {
    Mgr(Pool.Start(n, offered), Nobody, Outside, false, 0, false, [], Idle, Listening, Resting,
        [], [], [], [])
  }

  /** `sync.Cond.Signal` with a single waiter. */
  function Signal(w: Waiter): Waiter {
    if w == Asleep(false) then Asleep(true) else w
  }

  predicate SomeFree(m: Mgr) {
    exists i :: 0 <= i < |m.pool.workers| && m.pool.workers[i].state == Free
  }

  /** The result a health check saves for a match it gives up on. */
  function CancelOf(matchId: int): Result {
    Result(false, matchId, "{}")
  }

  predicate Enabled(c: Config, m: Mgr, a: Act) {
    match a
    case Cancel => true
    case WaitLock => m.waiter == Outside && m.mu == Nobody
    case WaitCheck => m.waiter == Locked
    case WaitSleep => m.waiter == Checked
    case WaitWake => m.waiter == Asleep(true) && m.mu == Nobody
    case AfterFunc => m.wakers > 0 && m.mu == Nobody
    case AssignOk(_) => m.mu == Nobody && Pool.FreeWorker(m.pool.workers).Some?
    case AssignLost(_) => m.mu == Nobody && Pool.FreeWorker(m.pool.workers).Some?
    case Deliver(_) => m.inbox == Listening
    case Drop => m.inbox.Got?
    case Ack => m.inbox.Got?
    case Push => m.inbox.Acked? && |m.chan| < c.capacity
    case Release => m.inbox.Pushed? && m.mu == Nobody
    case Ping(_) => m.health == Idle
    case HealthLock => m.health.Ready? && m.mu == Nobody
    case Visit(_) => m.health.Visiting? && m.health.next < |m.pool.workers|
    case CancelPush =>
      m.health.Canceling? && m.health.next < |m.pool.workers| && |m.chan| < c.capacity
    case Mark(_) => m.health.Marking? && m.health.next < |m.pool.workers|
    case HealthUnlock => m.health.Visiting? && m.health.next == |m.pool.workers|
    case RestartDone(k) => m.mu == Nobody && Pool.Enabled(m.pool, Pool.RestartDone(k))
    case RestartFailed(k) => k < |m.pool.tickets|
    case Receive => m.saver == Resting && m.chan != []
    case Removed => m.saver.Removing?
    case Saved => m.saver.Saving?
    case SaverExit => m.canceled && m.saver == Resting
  }

  /** The operation on the worker table that a step performs, if any. */
  function PoolOp(m: Mgr, a: Act): Option<Pool.Op> {
    match a
    case AssignOk(id) => Some(Pool.Assign(id))
    case AssignLost(id) => Some(Pool.OfferFailed(id))
    case Release => if m.inbox.Pushed? then Some(Pool.Release(m.inbox.res.matchId)) else None
    case Visit(_) =>
      if m.health.Visiting? then Some(Pool.Pong(m.health.next, m.health.next in m.health.pongs)) else None
    case Mark(now) => if m.health.Marking? then Some(Pool.Mark(m.health.next, now)) else None
    case RestartDone(k) => Some(Pool.RestartDone(k))
    case RestartFailed(k) => Some(Pool.RestartFailed(k))
    case _ => None
  }

  function PoolAfter(c: Config, m: Mgr, a: Act): Pool.Pool
    requires Enabled(c, m, a)
  {
    match PoolOp(m, a)
    case None => m.pool
    case Some(op) => Pool.Apply(m.pool, op, c.limits)
  }

  /** Whether a step frees a worker and so signals the waiter. */
  predicate FreesWorker(m: Mgr, a: Act) {
    match a
    case Release => m.inbox.Pushed? && Pool.Holder(m.pool.workers, m.inbox.res.matchId).Some?
    case RestartDone(k) =>
      && k < |m.pool.tickets| && m.pool.tickets[k].worker < |m.pool.workers|
      && m.pool.workers[m.pool.tickets[k].worker].stateId == m.pool.tickets[k].id
    case _ => false
  }

  function WaiterStep(m: Mgr, a: Act): Mgr {
    match a
    case Cancel =>
      m.(canceled := true, armed := false, wakers := m.wakers + if m.armed then 1 else 0)
    case WaitLock =>
      m.(mu := ByWaiter, waiter := Locked,
         armed := !m.canceled, wakers := m.wakers + if m.canceled then 1 else 0)
    case WaitCheck =>
      if SomeFree(m) || m.canceled
      then m.(mu := Nobody, waiter := Outside, armed := false)
      else m.(waiter := Checked)
    case WaitSleep => m.(mu := Nobody, waiter := Asleep(false))
    case WaitWake => m.(mu := ByWaiter, waiter := Locked)
    case AfterFunc =>
      m.(waiter := Signal(m.waiter), wakers := if m.wakers > 0 then m.wakers - 1 else 0)
    case _ => m
  }

  function InboxStep(c: Config, m: Mgr, a: Act): Mgr
    requires Enabled(c, m, a)
  {
    match a
    case Deliver(res) => m.(inbox := Got(res))
    case Drop => m.(inbox := Listening)
    case Ack => m.(inbox := Acked(m.inbox.res), acked := m.acked + [m.inbox.res])
    case Push =>
      m.(inbox := Pushed(m.inbox.res),
         chan := m.chan + [m.inbox.res],
         enqueued := m.enqueued + [Entry(FromInbox, m.inbox.res)])
    case Release =>
      m.(inbox := Listening,
         waiter := if FreesWorker(m, a) then Signal(m.waiter) else m.waiter,
         pool := PoolAfter(c, m, a))
    case _ => m
  }

  function HealthStep(c: Config, m: Mgr, a: Act): Mgr
    requires Enabled(c, m, a)
  {
    match a
    case Ping(pongs) => m.(health := Ready(pongs))
    case HealthLock => m.(mu := ByHealth, health := Visiting(m.health.pongs, 0))
    case Visit(now) =>
      var h := m.health;
      var p := PoolAfter(c, m, a);
      var w := p.workers[h.next];
      m.(pool := p,
         health := if Healthy(w, now, c.limits) then Visiting(h.pongs, h.next + 1)
                   else if w.state == Occupied then Canceling(h.pongs, h.next)
                   else Marking(h.pongs, h.next))
    case CancelPush =>
      var res := CancelOf(m.pool.workers[m.health.next].matchId);
      m.(chan := m.chan + [res],
         enqueued := m.enqueued + [Entry(FromHealth, res)],
         health := Marking(m.health.pongs, m.health.next))
    case Mark(now) =>
      m.(pool := PoolAfter(c, m, a), health := Visiting(m.health.pongs, m.health.next + 1))
    case HealthUnlock => m.(mu := Nobody, health := Idle)
    case _ => m
  }

  function SaverStep(c: Config, m: Mgr, a: Act): Mgr
    requires Enabled(c, m, a)
  {
    match a
    case Receive =>
      m.(saver := Removing(m.chan[0]), chan := m.chan[1..], received := m.received + [m.chan[0]])
    case Removed => m.(saver := Saving(m.saver.res))
    case Saved => m.(saver := Resting, done := m.done + [m.saver.res])
    case SaverExit => m.(saver := Gone)
    case _ => m
  }

  function TableStep(c: Config, m: Mgr, a: Act): Mgr
    requires Enabled(c, m, a)
  {
    match a
    case RestartDone(_) =>
      m.(pool := PoolAfter(c, m, a),
         waiter := if FreesWorker(m, a) then Signal(m.waiter) else m.waiter)
    case AssignOk(_) => m.(pool := PoolAfter(c, m, a))
    case AssignLost(_) => m.(pool := PoolAfter(c, m, a))
    case RestartFailed(_) => m.(pool := PoolAfter(c, m, a))
    case _ => m
  }

  predicate IsWaiterAct(a: Act) {
    a.Cancel? || a.WaitLock? || a.WaitCheck? || a.WaitSleep? || a.WaitWake? || a.AfterFunc?
  }

  predicate IsInboxAct(a: Act) {
    a.Deliver? || a.Drop? || a.Ack? || a.Push? || a.Release?
  }

  predicate IsHealthAct(a: Act) {
    a.Ping? || a.HealthLock? || a.Visit? || a.CancelPush? || a.Mark? || a.HealthUnlock?
  }

  predicate IsSaverAct(a: Act) {
    a.Receive? || a.Removed? || a.Saved? || a.SaverExit?
  }

  function Next(c: Config, m: Mgr, a: Act): Mgr
    requires Enabled(c, m, a)
  {
    if IsWaiterAct(a) then WaiterStep(m, a)
    else if IsInboxAct(a) then InboxStep(c, m, a)
    else if IsHealthAct(a) then HealthStep(c, m, a)
    else if IsSaverAct(a) then SaverStep(c, m, a)
    else TableStep(c, m, a)
  }

  /** What the surroundings owe: fresh match ids of at least 1, and results that name a match. */
  predicate Proper(m: Mgr, a: Act) {
    match a
    case AssignOk(id) => id >= 1 && id !in m.pool.offered
    case AssignLost(id) => id >= 1 && id !in m.pool.offered
    case Deliver(res) => res.matchId >= 1
    case _ => true
  }

  // ----- Mutual exclusion -----

  predicate HealthHolds(h: Health) {
    h.Visiting? || h.Canceling? || h.Marking?
  }

  predicate MutexInv(m: Mgr) {
    && (m.mu == ByHealth <==> HealthHolds(m.health))
    && (m.mu == ByWaiter <==> m.waiter == Locked || m.waiter == Checked)
    && (m.health.Visiting? ==> m.health.next <= |m.pool.workers|)
    && (m.health.Canceling? || m.health.Marking? ==> m.health.next < |m.pool.workers|)
    && (m.health.Canceling? ==> m.pool.workers[m.health.next].state == Occupied)
  }

  // ----- No lost wake-up -----

  /** Whether the manager still owes the sleeping waiter a wake-up because of a cancel. */
  predicate WakeInv(m: Mgr) {
    && (m.waiter == Checked || m.waiter == Asleep(false) ==>
          && !SomeFree(m)
          && (m.canceled ==> m.wakers >= 1))
    && (m.waiter != Outside && !m.canceled ==> m.armed)
    && (m.armed ==> !m.canceled && m.waiter != Outside)
  }

  // ----- The save pipeline -----

  function Results(log: seq<Entry>): (s: seq<Result>)
    ensures |s| == |log| && forall i :: 0 <= i < |s| ==> s[i] == log[i].res
  {
    seq(|log|, i requires 0 <= i < |log| => log[i].res)
  }

  function InboxResults(log: seq<Entry>): seq<Result> {
    if log == [] then []
    else
      var last := log[|log| - 1];
      InboxResults(log[..|log| - 1]) + if last.source == FromInbox then [last.res] else []
  }

  function CancelIds(log: seq<Entry>): multiset<int> {
    if log == [] then multiset{}
    else
      var last := log[|log| - 1];
      CancelIds(log[..|log| - 1]) + if last.source == FromHealth then multiset{last.res.matchId} else multiset{}
  }

  function InHand(s: Saver): seq<Result> {
    if s.Removing? || s.Saving? then [s.res] else []
  }

  function Unsent(i: Inbox): seq<Result> {
    if i.Acked? then [i.res] else []
  }

  /** The match a health check has sent a cancel for and not yet taken off its worker. */
  function CancelOut(m: Mgr): multiset<int> {
    if m.health.Marking? && m.health.next < |m.pool.workers| && m.pool.workers[m.health.next].state == Occupied
    then multiset{m.pool.workers[m.health.next].matchId}
    else multiset{}
  }

  predicate HasId(s: seq<Result>, id: int) {
    exists k :: 0 <= k < |s| && s[k].matchId == id
  }

  predicate QueueInv(c: Config, m: Mgr) {
    && |m.chan| <= c.capacity
    && Results(m.enqueued) == m.received + m.chan
    && m.received == m.done + InHand(m.saver)
    && m.acked == InboxResults(m.enqueued) + Unsent(m.inbox)
    && CancelIds(m.enqueued) == m.pool.canceled + CancelOut(m)
  }

  /** Whoever is about to take a worker off its match has sent a result for it. */
  ghost predicate LoggedInv(m: Mgr) {
    && (m.inbox.Pushed? ==> HasId(Results(m.enqueued), m.inbox.res.matchId))
    && (forall id :: id in CancelOut(m) ==> HasId(Results(m.enqueued), id))
  }

  ghost predicate FifoInv(c: Config, m: Mgr) {
    QueueInv(c, m) && LoggedInv(m)
  }

  predicate InboxNamesMatch(m: Mgr) {
    m.inbox != Listening ==> m.inbox.res.matchId >= 1
  }

  /** The saver leaves only when the context is canceled. */
  predicate SaverInv(m: Mgr) {
    m.saver == Gone ==> m.canceled
  }

  /** The invariant apart from the worker table's own. */
  ghost predicate FlowInv(c: Config, m: Mgr) {
    && MutexInv(m)
    && WakeInv(m)
    && FifoInv(c, m)
    && InboxNamesMatch(m)
    && SaverInv(m)
  }

  ghost predicate Inv(c: Config, m: Mgr) {
    Pool.Inv(m.pool) && FlowInv(c, m)
  }

  lemma StartInv(c: Config, n: nat, offered: multiset<int>)
    requires forall m :: offered[m] <= 1
    requires forall m :: m in offered ==> m >= 1
    ensures Inv(c, Start(n, offered))
  {
    Pool.StartInv(n, offered);
  }

  lemma PoolPart(c: Config, m: Mgr, a: Act)
    requires Pool.Inv(m.pool) && InboxNamesMatch(m) && Enabled(c, m, a) && Proper(m, a)
    ensures Pool.Inv(PoolAfter(c, m, a))
  {
    match PoolOp(m, a)
    case None =>
    case Some(op) =>
      assert Pool.Enabled(m.pool, op) && Pool.Proper(m.pool, op);
      Pool.StepInv(m.pool, op, c.limits);
  }

  lemma WaiterFrame(m: Mgr, a: Act)
    requires IsWaiterAct(a)
    ensures var n := WaiterStep(m, a);
            && n.pool == m.pool && n.health == m.health && n.chan == m.chan && n.inbox == m.inbox
            && n.saver == m.saver && n.enqueued == m.enqueued && n.received == m.received
            && n.done == m.done && n.acked == m.acked && (m.canceled ==> n.canceled)
  {
  }

  lemma WaiterWakes(c: Config, m: Mgr, a: Act)
    requires MutexInv(m) && WakeInv(m) && Enabled(c, m, a) && IsWaiterAct(a)
    ensures MutexInv(WaiterStep(m, a)) && WakeInv(WaiterStep(m, a))
  {
    assert SomeFree(WaiterStep(m, a)) == SomeFree(m);
  }

  lemma WaiterFlow(c: Config, m: Mgr, a: Act)
    requires FlowInv(c, m) && Enabled(c, m, a) && IsWaiterAct(a)
    ensures FlowInv(c, Next(c, m, a))
  {
    var n := WaiterStep(m, a);
    WaiterFrame(m, a);
    WaiterWakes(c, m, a);
    assert CancelOut(n) == CancelOut(m);
    assert FifoInv(c, n);
  }

  lemma LogGrows(log: seq<Entry>, e: Entry)
    ensures Results(log + [e]) == Results(log) + [e.res]
    ensures InboxResults(log + [e]) == InboxResults(log) + if e.source == FromInbox then [e.res] else []
    ensures CancelIds(log + [e]) ==
            CancelIds(log) + if e.source == FromHealth then multiset{e.res.matchId} else multiset{}
  {
    assert (log + [e])[..|log|] == log;
  }

  lemma HasIdGrows(s: seq<Result>, r: Result, id: int)
    requires HasId(s, id) || r.matchId == id
    ensures HasId(s + [r], id)
  {
    if HasId(s, id) {
      var k :| 0 <= k < |s| && s[k].matchId == id;
      assert (s + [r])[k].matchId == id;
    } else {
      assert (s + [r])[|s|].matchId == id;
    }
  }

  /** Sending keeps the pipeline's invariant, whoever sends. */
  lemma SendKept(c: Config, m: Mgr, n: Mgr, e: Entry)
    requires QueueInv(c, m) && |m.chan| < c.capacity
    requires n.chan == m.chan + [e.res] && n.enqueued == m.enqueued + [e]
    requires n.received == m.received && n.done == m.done && n.saver == m.saver && n.acked == m.acked
    requires Unsent(m.inbox) == (if e.source == FromInbox then [e.res] else []) + Unsent(n.inbox)
    requires n.pool.canceled == m.pool.canceled
    requires CancelOut(n) ==
             CancelOut(m) + if e.source == FromHealth then multiset{e.res.matchId} else multiset{}
    ensures QueueInv(c, n)
  {
    LogGrows(m.enqueued, e);
    AppendKept(m.received, m.chan, e.res);
    var sent := if e.source == FromInbox then [e.res] else [];
    assert m.acked == InboxResults(m.enqueued) + (sent + Unsent(n.inbox));
    assert m.acked == InboxResults(m.enqueued) + sent + Unsent(n.inbox);
  }

  lemma AppendKept<T>(a: seq<T>, b: seq<T>, x: T)
    ensures a + b + [x] == a + (b + [x])
  {
  }

  lemma SendLogged(m: Mgr, n: Mgr, e: Entry)
    requires LoggedInv(m) && n.enqueued == m.enqueued + [e]
    requires n.inbox.Pushed? ==> n.inbox == m.inbox || n.inbox.res == e.res
    requires forall id :: id in CancelOut(n) ==> id in CancelOut(m) || id == e.res.matchId
    ensures LoggedInv(n)
  {
    IdsGrow(m.enqueued, e);
  }

  lemma IdsGrow(log: seq<Entry>, e: Entry)
    ensures forall id :: HasId(Results(log), id) || id == e.res.matchId ==> HasId(Results(log + [e]), id)
  {
    LogGrows(log, e);
    forall id | HasId(Results(log), id) || id == e.res.matchId ensures HasId(Results(log + [e]), id) {
      HasIdGrows(Results(log), e.res, id);
    }
  }

  lemma PushFlow(c: Config, m: Mgr)
    requires FlowInv(c, m) && Enabled(c, m, Push)
    ensures FlowInv(c, Next(c, m, Push))
  {
    var n := InboxStep(c, m, Push);
    assert CancelOut(n) == CancelOut(m);
    assert SomeFree(n) == SomeFree(m);
    SendKept(c, m, n, Entry(FromInbox, m.inbox.res));
    SendLogged(m, n, Entry(FromInbox, m.inbox.res));
  }

  /** The pipeline is untouched by a step that keeps its channel, its logs and its cancels. */
  lemma FifoKept(c: Config, m: Mgr, n: Mgr)
    requires FifoInv(c, m)
    requires n.chan == m.chan && n.enqueued == m.enqueued && n.received == m.received
    requires n.done == m.done && n.acked == m.acked && n.saver == m.saver
    requires n.inbox == m.inbox || (Unsent(n.inbox) == Unsent(m.inbox) && !n.inbox.Pushed?)
    requires n.pool.canceled == m.pool.canceled && CancelOut(n) == CancelOut(m)
    ensures FifoInv(c, n)
  {
  }

  /** A step keeps the wake-up invariant if it signals whenever it frees a worker. */
  lemma WakeKept(m: Mgr, n: Mgr)
    requires WakeInv(m) && m.waiter != Checked
    requires n.canceled == m.canceled && n.armed == m.armed && n.wakers == m.wakers
    requires n.waiter == Signal(m.waiter) || (n.waiter == m.waiter && (SomeFree(n) ==> SomeFree(m)))
    ensures WakeInv(n)
  {
  }

  lemma ReleaseFlow(c: Config, m: Mgr)
    requires FlowInv(c, m) && Enabled(c, m, Release)
    ensures FlowInv(c, Next(c, m, Release))
  {
    var n := InboxStep(c, m, Release);
    Pool.ReleaseFrame(m.pool, m.inbox.res.matchId, c.limits);
    FifoKept(c, m, n);
    WakeKept(m, n);
  }

  lemma InboxFlow(c: Config, m: Mgr, a: Act)
    requires FlowInv(c, m) && Enabled(c, m, a) && Proper(m, a) && IsInboxAct(a)
    ensures FlowInv(c, Next(c, m, a))
  {
    if a == Push {
      PushFlow(c, m);
    } else if a == Release {
      ReleaseFlow(c, m);
    } else {
      var n := InboxStep(c, m, a);
      assert n.pool == m.pool && n.health == m.health && n.chan == m.chan && n.waiter == m.waiter;
      assert SomeFree(n) == SomeFree(m);
      assert CancelOut(n) == CancelOut(m);
      assert FifoInv(c, n);
    }
  }

  lemma VisitFlow(c: Config, m: Mgr, now: Time)
    requires FlowInv(c, m) && Enabled(c, m, Visit(now))
    ensures FlowInv(c, Next(c, m, Visit(now)))
  {
    var n := HealthStep(c, m, Visit(now));
    Pool.PongFrame(m.pool, m.health.next, m.health.next in m.health.pongs, c.limits);
    assert CancelOut(m) == CancelOut(n) == multiset{};
    assert MutexInv(n);
    assert WakeInv(n);
  }

  lemma CancelPushFlow(c: Config, m: Mgr)
    requires FlowInv(c, m) && Enabled(c, m, CancelPush)
    ensures FlowInv(c, Next(c, m, CancelPush))
  {
    var n := HealthStep(c, m, CancelPush);
    var res := CancelOf(m.pool.workers[m.health.next].matchId);
    assert CancelOut(m) == multiset{};
    assert CancelOut(n) == multiset{res.matchId};
    SendKept(c, m, n, Entry(FromHealth, res));
    SendLogged(m, n, Entry(FromHealth, res));
    assert SomeFree(n) == SomeFree(m);
    WakeKept(m, n);
  }

  lemma MarkFifo(c: Config, m: Mgr, now: Time)
    requires FifoInv(c, m) && MutexInv(m) && Enabled(c, m, Mark(now))
    ensures FifoInv(c, HealthStep(c, m, Mark(now)))
  {
    var n := HealthStep(c, m, Mark(now));
    Pool.MarkFrame(m.pool, m.health.next, now, c.limits);
    assert CancelOut(n) == multiset{};
    assert n.pool.canceled == m.pool.canceled + CancelOut(m);
  }

  lemma MarkFlow(c: Config, m: Mgr, now: Time)
    requires FlowInv(c, m) && Enabled(c, m, Mark(now))
    ensures FlowInv(c, Next(c, m, Mark(now)))
  {
    var n := HealthStep(c, m, Mark(now));
    Pool.MarkFrame(m.pool, m.health.next, now, c.limits);
    MarkFifo(c, m, now);
    WakeKept(m, n);
  }

  lemma HealthFlow(c: Config, m: Mgr, a: Act)
    requires FlowInv(c, m) && Enabled(c, m, a) && Proper(m, a) && IsHealthAct(a)
    ensures FlowInv(c, Next(c, m, a))
  {
    if a.Visit? {
      VisitFlow(c, m, a.now);
    } else if a.CancelPush? {
      CancelPushFlow(c, m);
    } else if a.Mark? {
      MarkFlow(c, m, a.now);
    } else {
      var n := HealthStep(c, m, a);
      assert n.pool == m.pool && n.waiter == m.waiter;
      assert SomeFree(n) == SomeFree(m);
      assert CancelOut(n) == CancelOut(m) == multiset{};
    }
  }

  lemma SaverQueue(c: Config, m: Mgr, a: Act)
    requires QueueInv(c, m) && Enabled(c, m, a) && IsSaverAct(a)
    ensures QueueInv(c, SaverStep(c, m, a))
  {
    var n := SaverStep(c, m, a);
    assert CancelOut(n) == CancelOut(m);
    if a == Receive {
      assert m.chan == [m.chan[0]] + m.chan[1..];
      assert m.received + m.chan == n.received + n.chan;
    }
  }

  lemma SaverFlow(c: Config, m: Mgr, a: Act)
    requires FlowInv(c, m) && Enabled(c, m, a) && IsSaverAct(a)
    ensures FlowInv(c, Next(c, m, a))
  {
    var n := SaverStep(c, m, a);
    SaverQueue(c, m, a);
    assert n.waiter == m.waiter && n.canceled == m.canceled && n.wakers == m.wakers && n.armed == m.armed;
    assert n.pool == m.pool && n.health == m.health && n.waiter == m.waiter && n.enqueued == m.enqueued;
    assert SomeFree(n) == SomeFree(m);
    assert CancelOut(n) == CancelOut(m);
  }

  lemma RestartDoneFlow(c: Config, m: Mgr, k: nat)
    requires FlowInv(c, m) && Enabled(c, m, RestartDone(k))
    ensures FlowInv(c, Next(c, m, RestartDone(k)))
  {
    var n := TableStep(c, m, RestartDone(k));
    Pool.RestartFrame(m.pool, k, c.limits);
    FifoKept(c, m, n);
    WakeKept(m, n);
  }

  lemma AssignOkFlow(c: Config, m: Mgr, id: int)
    requires FlowInv(c, m) && Enabled(c, m, AssignOk(id)) && Proper(m, AssignOk(id))
    ensures FlowInv(c, Next(c, m, AssignOk(id)))
  {
    var n := TableStep(c, m, AssignOk(id));
    Pool.AssignFrame(m.pool, id, c.limits);
    FifoKept(c, m, n);
    WakeKept(m, n);
  }

  /** A step that changes nothing but the books of the pool keeps the rest. */
  lemma UntouchedWorkers(c: Config, m: Mgr, n: Mgr)
    requires MutexInv(m) && WakeInv(m) && FifoInv(c, m)
    requires n == m.(pool := n.pool)
    requires n.pool.workers == m.pool.workers && n.pool.canceled == m.pool.canceled
    ensures MutexInv(n) && WakeInv(n) && FifoInv(c, n)
  {
    assert SomeFree(n) == SomeFree(m);
    assert CancelOut(n) == CancelOut(m);
  }

  lemma AssignLostFlow(c: Config, m: Mgr, id: int)
    requires FlowInv(c, m) && Enabled(c, m, AssignLost(id)) && Proper(m, AssignLost(id))
    ensures FlowInv(c, Next(c, m, AssignLost(id)))
  {
    var p := m.pool.(offered := m.pool.offered + multiset{id});
    var n := Next(c, m, AssignLost(id));
    assert n == m.(pool := p);
    UntouchedWorkers(c, m, n);
  }

  lemma RestartFailedFlow(c: Config, m: Mgr, k: nat)
    requires FlowInv(c, m) && Enabled(c, m, RestartFailed(k))
    ensures FlowInv(c, Next(c, m, RestartFailed(k)))
  {
    var p := Pool.Apply(m.pool, Pool.RestartFailed(k), c.limits);
    assert p == PoolAfter(c, m, RestartFailed(k));
    UntouchedWorkers(c, m, m.(pool := p));
  }

  lemma TableFlow(c: Config, m: Mgr, a: Act)
    requires FlowInv(c, m) && Enabled(c, m, a) && Proper(m, a)
    requires a.RestartDone? || a.AssignOk? || a.AssignLost? || a.RestartFailed?
    ensures FlowInv(c, Next(c, m, a))
  {
    if a.RestartDone? {
      RestartDoneFlow(c, m, a.ticket);
    } else if a.AssignOk? {
      AssignOkFlow(c, m, a.matchId);
    } else if a.AssignLost? {
      AssignLostFlow(c, m, a.matchId);
    } else {
      RestartFailedFlow(c, m, a.ticket);
    }
  }

  /** Only the matchmaker's offers use up match ids. */
  lemma NextOffered(c: Config, m: Mgr, a: Act)
    requires Enabled(c, m, a)
    ensures Next(c, m, a).pool.offered ==
            m.pool.offered + if a.AssignOk? || a.AssignLost? then multiset{a.matchId} else multiset{}
  {
  }

  lemma FlowPart(c: Config, m: Mgr, a: Act)
    requires FlowInv(c, m) && Enabled(c, m, a) && Proper(m, a)
    ensures FlowInv(c, Next(c, m, a))
  {
    if IsWaiterAct(a) {
      WaiterFlow(c, m, a);
    } else if IsInboxAct(a) {
      InboxFlow(c, m, a);
    } else if IsHealthAct(a) {
      HealthFlow(c, m, a);
    } else if IsSaverAct(a) {
      SaverFlow(c, m, a);
    } else {
      TableFlow(c, m, a);
    }
  }

  lemma NextPool(c: Config, m: Mgr, a: Act)
    requires Enabled(c, m, a)
    ensures Next(c, m, a).pool == PoolAfter(c, m, a)
  {
    if IsInboxAct(a) {
      assert InboxStep(c, m, a).pool == PoolAfter(c, m, a);
    } else if IsHealthAct(a) {
      assert HealthStep(c, m, a).pool == PoolAfter(c, m, a);
    } else if IsWaiterAct(a) {
      assert WaiterStep(m, a).pool == m.pool;
    } else if IsSaverAct(a) {
      assert SaverStep(c, m, a).pool == m.pool;
    }
  }

  /** Every step keeps the invariant. */
  lemma StepInv(c: Config, m: Mgr, a: Act)
    requires Inv(c, m) && Enabled(c, m, a) && Proper(m, a)
    ensures Inv(c, Next(c, m, a))
  {
    PoolPart(c, m, a);
    NextPool(c, m, a);
    FlowPart(c, m, a);
  }
}

/**
 * The worker table under `wm.mu`: the critical sections that change it, the
 * restart goroutines that are still out, and the account of every match.
 */
module Pool {
  import opened Base
  import opened Workers

  /** A restart goroutine: the worker it restarts and the state id it was given. */
  datatype Ticket = Ticket(worker: nat, id: nat)

  /**
   * `offered` counts every match id put to a worker, `taken` those the worker
   * took, `freed` those whose result found its worker, and `canceled` those the
   * health check gave up on.
   */
  datatype Pool = Pool(
    workers: seq<Rec>,
    tickets: seq<Ticket>,
    offered: multiset<int>,
    taken: multiset<int>,
    freed: multiset<int>,
    canceled: multiset<int>)

  datatype Op =
    | Assign(matchId: int)
    | OfferFailed(matchId: int)
    | Release(matchId: int)
    | Pong(worker: nat, pong: bool)
    | Mark(worker: nat, now: Time)
    | RestartDone(ticket: nat)
    | RestartFailed(ticket: nat)

  // ----- Lookups -----

  /** The index of the first free worker, or None. */
  function FreeWorker(ws: seq<Rec>): (r: Option<nat>)
    ensures r.None? ==> forall i :: 0 <= i < |ws| ==> ws[i].state != Free
    ensures r.Some? ==> r.value < |ws| && ws[r.value].state == Free
    ensures r.Some? ==> forall i :: 0 <= i < r.value ==> ws[i].state != Free
  {
    FreeFrom(ws, 0)
  }

  function FreeFrom(ws: seq<Rec>, k: nat): (r: Option<nat>)
    requires k <= |ws|
    ensures r.None? ==> forall i :: k <= i < |ws| ==> ws[i].state != Free
    ensures r.Some? ==> k <= r.value < |ws| && ws[r.value].state == Free
    ensures r.Some? ==> forall i :: k <= i < r.value ==> ws[i].state != Free
    decreases |ws| - k
  {
    if k == |ws| then None
    else if ws[k].state == Free then Some(k)
    else FreeFrom(ws, k + 1)
  }

  /** The index of the first worker whose match id is `m`, or None. */
  function Holder(ws: seq<Rec>, m: int): (r: Option<nat>)
    ensures r.None? ==> forall i :: 0 <= i < |ws| ==> ws[i].matchId != m
    ensures r.Some? ==> r.value < |ws| && ws[r.value].matchId == m
    ensures r.Some? ==> forall i :: 0 <= i < r.value ==> ws[i].matchId != m
  {
    HolderFrom(ws, m, 0)
  }

  function HolderFrom(ws: seq<Rec>, m: int, k: nat): (r: Option<nat>)
    requires k <= |ws|
    ensures r.None? ==> forall i :: k <= i < |ws| ==> ws[i].matchId != m
    ensures r.Some? ==> k <= r.value < |ws| && ws[r.value].matchId == m
    ensures r.Some? ==> forall i :: k <= i < r.value ==> ws[i].matchId != m
    decreases |ws| - k
  {
    if k == |ws| then None
    else if ws[k].matchId == m then Some(k)
    else HolderFrom(ws, m, k + 1)
  }

  // ----- Critical sections -----

  predicate Enabled(p: Pool, op: Op) {
    match op
    case Assign(m) => FreeWorker(p.workers).Some?
    case OfferFailed(m) => FreeWorker(p.workers).Some?
    case Release(m) => true
    case Pong(i, _) => i < |p.workers|
    case Mark(i, _) => i < |p.workers|
    case RestartDone(k) => k < |p.tickets| && p.tickets[k].worker < |p.workers|
    case RestartFailed(k) => k < |p.tickets|
  }

  function Without<T>(s: seq<T>, k: nat): (r: seq<T>)
    requires k < |s|
    ensures |r| == |s| - 1
    ensures forall i :: 0 <= i < |r| ==> r[i] == s[if i < k then i else i + 1]
  {
    s[..k] + s[k + 1..]
  }

  function AfterPong(p: Pool, i: nat, pong: bool): Pool
    requires i < |p.workers|
  {
    p.(workers := p.workers[i := Ponged(p.workers[i], pong)])
  }

  function AfterMark(p: Pool, i: nat, now: Time, limits: Limits): Pool
    requires i < |p.workers|
  {
    var w := p.workers[i];
    p.(workers := p.workers[i := Marked(w, now, limits)],
       tickets := p.tickets + [Ticket(i, w.stateId + 1)],
       canceled := if w.state == Occupied then p.canceled + multiset{w.matchId} else p.canceled)
  }

  function Apply(p: Pool, op: Op, limits: Limits): Pool
    requires Enabled(p, op)
  {
    match op
    case Assign(m) =>
      var i := FreeWorker(p.workers).value;
      p.(workers := p.workers[i := Taken(p.workers[i], m)],
         offered := p.offered + multiset{m},
         taken := p.taken + multiset{m})
    case OfferFailed(m) =>
      p.(offered := p.offered + multiset{m})
    case Release(m) =>
      (match Holder(p.workers, m)
       case None => p
       case Some(i) =>
         p.(workers := p.workers[i := Freed(p.workers[i])],
            freed := p.freed + multiset{m}))
    case Pong(i, pong) => AfterPong(p, i, pong)
    case Mark(i, now) => AfterMark(p, i, now, limits)
    case RestartDone(k) =>
      var t := p.tickets[k];
      var rest := p.(tickets := Without(p.tickets, k));
      if p.workers[t.worker].stateId != t.id then rest
      else rest.(workers := p.workers[t.worker := Freed(p.workers[t.worker])])
    case RestartFailed(k) =>
      p.(tickets := Without(p.tickets, k))
  }

  /**
   * What callers owe the pool: match ids are at least 1 and an id is offered
   * only once (both come from the sequence), and results name a match.
   */
  predicate Proper(p: Pool, op: Op) {
    match op
    case Assign(m) => m >= 1 && m !in p.offered
    case OfferFailed(m) => m >= 1 && m !in p.offered
    case Release(m) => m >= 1
    case _ => true
  }

  // ----- The invariant -----

  predicate WorkerOk(w: Rec) {
    && w.matchId >= 0
    && (w.matchId != 0 <==> w.state == Occupied)
    && (w.validUntil.Some? <==> w.state == Restarting)
  }

  /** No match runs on two workers. */
  ghost predicate DistinctMatches(ws: seq<Rec>) {
    forall i, j :: 0 <= i < j < |ws| && ws[i].matchId != 0 ==> ws[i].matchId != ws[j].matchId
  }

  /**
   * The restart guard. A ticket never outruns its worker; a ticket that is
   * still current finds its worker restarting; tickets for one worker differ,
   * so at most one of them is current.
   */
  ghost predicate TicketsOk(p: Pool) {
    && (forall k :: 0 <= k < |p.tickets| ==>
          && p.tickets[k].worker < |p.workers|
          && p.tickets[k].id <= p.workers[p.tickets[k].worker].stateId
          && (p.tickets[k].id == p.workers[p.tickets[k].worker].stateId ==>
                p.workers[p.tickets[k].worker].state == Restarting))
    && (forall j, k :: 0 <= j < k < |p.tickets| ==> p.tickets[j] != p.tickets[k])
  }

  function Ids(ws: seq<Rec>): (s: seq<int>)
    ensures |s| == |ws| && forall i :: 0 <= i < |ws| ==> s[i] == ws[i].matchId
  {
    seq(|ws|, i requires 0 <= i < |ws| => ws[i].matchId)
  }

  /** The matches the workers now run, with multiplicity. */
  function Running(ws: seq<Rec>): multiset<int> {
    multiset(Ids(ws))[0 := 0]
  }

  /** Every assigned match is running, or came back as a result, or was canceled. */
  ghost predicate Conserved(p: Pool) {
    p.taken == Running(p.workers) + p.freed + p.canceled
  }

  ghost predicate OfferedOnce(p: Pool) {
    && (forall m :: p.offered[m] <= 1)
    && (forall m :: m in p.offered ==> m >= 1)
    && p.taken <= p.offered
  }

  /** The part of the invariant about the workers and the restarts. */
  ghost predicate Shape(p: Pool) {
    && (forall i :: 0 <= i < |p.workers| ==> WorkerOk(p.workers[i]))
    && DistinctMatches(p.workers)
    && TicketsOk(p)
  }

  /** The part about the account of matches. */
  ghost predicate Books(p: Pool) {
    Conserved(p) && OfferedOnce(p)
  }

  ghost predicate Inv(p: Pool) {
    Shape(p) && Books(p)
  }

  function Start(n: nat, offered: multiset<int>): Pool {
    Pool(seq(n, i => FRESH), [], offered, multiset{}, multiset{}, multiset{})
  }

  lemma StartInv(n: nat, offered: multiset<int>)
    requires forall m :: offered[m] <= 1
    requires forall m :: m in offered ==> m >= 1
    ensures Inv(Start(n, offered))
  {
    var p := Start(n, offered);
    assert Running(p.workers) == multiset{} by {
      forall m ensures Running(p.workers)[m] == 0 {
        if m != 0 {
          assert m !in Ids(p.workers);
        }
      }
    }
  }

  lemma RunningUpdate(ws: seq<Rec>, i: nat, w: Rec)
    requires i < |ws|
    ensures Running(ws[i := w]) ==
            Running(ws) - (if ws[i].matchId == 0 then multiset{} else multiset{ws[i].matchId})
            + (if w.matchId == 0 then multiset{} else multiset{w.matchId})
  {
    assert Ids(ws[i := w]) == Ids(ws)[i := w.matchId];
    assert Ids(ws)[i] in Ids(ws);
  }

  lemma RunningCounts(ws: seq<Rec>, i: nat)
    requires i < |ws| && ws[i].matchId != 0
    ensures Running(ws)[ws[i].matchId] >= 1
  {
    assert Ids(ws)[i] in Ids(ws);
  }

  lemma NotOfferedNotHeld(p: Pool, m: int)
    requires Books(p) && m != 0 && m !in p.offered
    ensures forall j :: 0 <= j < |p.workers| ==> p.workers[j].matchId != m
  {
    forall j | 0 <= j < |p.workers| ensures p.workers[j].matchId != m {
      if p.workers[j].matchId == m {
        RunningCounts(p.workers, j);
        assert false;
      }
    }
  }

  lemma ShapeAssign(p: Pool, m: int, limits: Limits)
    requires Shape(p) && Enabled(p, Assign(m)) && m >= 1
    requires forall j :: 0 <= j < |p.workers| ==> p.workers[j].matchId != m
    ensures Shape(Apply(p, Assign(m), limits))
  {
  }

  lemma BooksAssign(p: Pool, m: int, limits: Limits)
    requires Shape(p) && Books(p) && Enabled(p, Assign(m)) && Proper(p, Assign(m))
    ensures Books(Apply(p, Assign(m), limits))
  {
    var i := FreeWorker(p.workers).value;
    RunningUpdate(p.workers, i, Taken(p.workers[i], m));
    assert p.workers[i].matchId == 0;
  }

  lemma ShapeRelease(p: Pool, m: int, limits: Limits)
    requires Shape(p) && m >= 1
    ensures Shape(Apply(p, Release(m), limits))
  {
  }

  lemma BooksRelease(p: Pool, m: int, limits: Limits)
    requires Books(p) && m >= 1
    ensures Books(Apply(p, Release(m), limits))
  {
    if Holder(p.workers, m).Some? {
      var i := Holder(p.workers, m).value;
      RunningUpdate(p.workers, i, Freed(p.workers[i]));
      RunningCounts(p.workers, i);
    }
  }

  lemma ShapePong(p: Pool, i: nat, pong: bool, limits: Limits)
    requires Shape(p) && i < |p.workers|
    ensures Shape(Apply(p, Pong(i, pong), limits))
  {
  }

  lemma ShapeMark(p: Pool, i: nat, now: Time, limits: Limits)
    requires Shape(p) && i < |p.workers|
    ensures Shape(Apply(p, Mark(i, now), limits))
  {
  }

  lemma BooksMark(p: Pool, i: nat, now: Time, limits: Limits)
    requires Books(p) && i < |p.workers| && WorkerOk(p.workers[i])
    ensures Books(Apply(p, Mark(i, now), limits))
  {
    RunningUpdate(p.workers, i, Marked(p.workers[i], now, limits));
    if p.workers[i].matchId != 0 {
      RunningCounts(p.workers, i);
    }
  }

  lemma ShapeRestartDone(p: Pool, k: nat, limits: Limits)
    requires Shape(p) && Enabled(p, RestartDone(k))
    ensures Shape(Apply(p, RestartDone(k), limits))
  {
  }

  lemma BooksRestartDone(p: Pool, k: nat, limits: Limits)
    requires Shape(p) && Books(p) && Enabled(p, RestartDone(k))
    ensures Books(Apply(p, RestartDone(k), limits))
  {
    var t := p.tickets[k];
    RunningUpdate(p.workers, t.worker, Freed(p.workers[t.worker]));
  }

  lemma ShapeRestartFailed(p: Pool, k: nat, limits: Limits)
    requires Shape(p) && k < |p.tickets|
    ensures Shape(Apply(p, RestartFailed(k), limits))
  {
  }

  lemma ShapePart(p: Pool, op: Op, limits: Limits)
    requires Shape(p) && Enabled(p, op) && Proper(p, op)
    requires op.Assign? ==> forall j :: 0 <= j < |p.workers| ==> p.workers[j].matchId != op.matchId
    ensures Shape(Apply(p, op, limits))
  {
    match op
    case Assign(m) => ShapeAssign(p, m, limits);
    case OfferFailed(m) =>
    case Release(m) => ShapeRelease(p, m, limits);
    case Pong(i, pong) => ShapePong(p, i, pong, limits);
    case Mark(i, now) => ShapeMark(p, i, now, limits);
    case RestartDone(k) => ShapeRestartDone(p, k, limits);
    case RestartFailed(k) => ShapeRestartFailed(p, k, limits);
  }

  lemma BooksOffer(p: Pool, m: int, limits: Limits)
    requires Books(p) && Enabled(p, OfferFailed(m)) && m >= 1 && m !in p.offered
    ensures Books(Apply(p, OfferFailed(m), limits))
  {
  }

  lemma BooksPong(p: Pool, i: nat, pong: bool, limits: Limits)
    requires Books(p) && i < |p.workers|
    ensures Books(Apply(p, Pong(i, pong), limits))
  {
    assert Ids(AfterPong(p, i, pong).workers) == Ids(p.workers);
  }

  lemma BooksRestartFailed(p: Pool, k: nat, limits: Limits)
    requires Books(p) && k < |p.tickets|
    ensures Books(Apply(p, RestartFailed(k), limits))
  {
  }

  lemma BooksPart(p: Pool, op: Op, limits: Limits)
    requires Shape(p) && Books(p) && Enabled(p, op) && Proper(p, op)
    ensures Books(Apply(p, op, limits))
  {
    match op
    case Assign(m) => BooksAssign(p, m, limits);
    case OfferFailed(m) => BooksOffer(p, m, limits);
    case Release(m) => BooksRelease(p, m, limits);
    case Pong(i, pong) => BooksPong(p, i, pong, limits);
    case Mark(i, now) => BooksMark(p, i, now, limits);
    case RestartDone(k) => BooksRestartDone(p, k, limits);
    case RestartFailed(k) => BooksRestartFailed(p, k, limits);
  }

  /** Every critical section keeps the invariant. */
  lemma StepInv(p: Pool, op: Op, limits: Limits)
    requires Inv(p) && Enabled(p, op) && Proper(p, op)
    ensures Inv(Apply(p, op, limits))
  {
    if op.Assign? {
      NotOfferedNotHeld(p, op.matchId);
    }
    ShapePart(p, op, limits);
    BooksPart(p, op, limits);
  }

  // ----- What each critical section leaves alone -----

  lemma ReleaseFrame(p: Pool, m: int, limits: Limits)
    ensures var q := Apply(p, Release(m), limits);
            && |q.workers| == |p.workers| && q.canceled == p.canceled
            && (Holder(p.workers, m).None? ==> q.workers == p.workers)
  {
  }

  lemma PongFrame(p: Pool, i: nat, pong: bool, limits: Limits)
    requires i < |p.workers|
    ensures var q := Apply(p, Pong(i, pong), limits);
            && |q.workers| == |p.workers| && q.canceled == p.canceled
            && forall j :: 0 <= j < |p.workers| ==>
                 q.workers[j].state == p.workers[j].state && q.workers[j].matchId == p.workers[j].matchId
  {
  }

  lemma MarkFrame(p: Pool, i: nat, now: Time, limits: Limits)
    requires i < |p.workers|
    ensures var q := Apply(p, Mark(i, now), limits);
            && |q.workers| == |p.workers|
            && q.workers[i].state == Restarting
            && forall j :: 0 <= j < |p.workers| && j != i ==> q.workers[j] == p.workers[j]
  {
  }

  lemma RestartFrame(p: Pool, k: nat, limits: Limits)
    requires Enabled(p, RestartDone(k))
    ensures var q := Apply(p, RestartDone(k), limits);
            && |q.workers| == |p.workers| && q.canceled == p.canceled
            && (p.workers[p.tickets[k].worker].stateId != p.tickets[k].id ==> q.workers == p.workers)
  {
  }

  lemma AssignFrame(p: Pool, m: int, limits: Limits)
    requires Enabled(p, Assign(m))
    ensures var q := Apply(p, Assign(m), limits);
            && |q.workers| == |p.workers| && q.canceled == p.canceled
            && forall j :: 0 <= j < |p.workers| && q.workers[j].state == Free ==> p.workers[j].state == Free
  {
  }

  /** Only a result for its match and a mark take a worker off its match. */
  lemma MatchKept(p: Pool, op: Op, j: nat, limits: Limits)
    requires Shape(p) && Enabled(p, op) && j < |p.workers| && p.workers[j].matchId != 0
    requires op != Release(p.workers[j].matchId) && !(op.Mark? && op.worker == j)
    ensures |Apply(p, op, limits).workers| == |p.workers|
    ensures Apply(p, op, limits).workers[j].matchId == p.workers[j].matchId
  {
    assert WorkerOk(p.workers[j]);
  }
}

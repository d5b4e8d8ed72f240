/** What an API instance's registry guarantees over every sequence of events. */
module RegistryTheorems {
  import opened Base
  import opened Tables
  import opened Registry

  /** `Lose` is any close of a connection: by its socket, its watchdog or a poll. */
  datatype Event =
    | Arrive(key: Key, live: bool)
    | Lose(key: Key)
    | Deliver(key: Key, payload: Payload, ok: bool)
    | Stop

  /** Websocket ids are distinct: only a key never seen before arrives. */
  predicate Possible(r: Registry, e: Event) {
    match e
    case Arrive(k, _) => k !in r.conns
    case Lose(k) => k in r.conns
    case Deliver(k, _, _) => k in r.conns
    case Stop => true
  }

  function After(r: Registry, e: Event): Registry
    requires Possible(r, e)
  {
    match e
    case Arrive(k, live) => Register(r, k, live)
    case Lose(k) => Close(r, k)
    case Deliver(k, p, ok) => SendMatch(r, k, p, ok)
    case Stop => Shutdown(r)
  }

  ghost predicate IsRun(run: seq<Registry>, events: seq<Event>) {
    && |run| == |events| + 1
    && run[0] == EMPTY_REGISTRY
    && forall i :: 0 <= i < |events| ==>
         && Possible(run[i], events[i])
         && run[i + 1] == After(run[i], events[i])
  }

  lemma AfterInv(r: Registry, e: Event)
    requires Inv(r) && Possible(r, e)
    ensures Inv(After(r, e))
  {
    match e
    case Arrive(k, live) => RegisterInv(r, k, live);
    case Lose(k) => CloseInv(r, k);
    case Deliver(k, p, ok) => SendMatchInv(r, k, p, ok);
    case Stop => ShutdownInv(r);
  }

  /**
   * After any sequence of events a connection is in the Map if and only if it
   * is open, every tracked login leads to such a connection, no connection was
   * sent two payloads, and `removeQueueStatus` was called at most once for each.
   */
  lemma {:induction false} TrackedIffOpen(run: seq<Registry>, events: seq<Event>, i: nat)
    requires IsRun(run, events) && i < |run|
    ensures Inv(run[i])
  {
    if i > 0 {
      TrackedIffOpen(run, events, i - 1);
      AfterInv(run[i - 1], events[i - 1]);
    }
  }

  /** One event on one connection. */
  predicate Keeps(r: Registry, q: Registry, k: Key) {
    k in r.conns && r.conns[k].phase == Closed ==>
      k in q.conns && q.conns[k].phase == Closed && q.removals[k] == r.removals[k]
  }

  lemma ArrivalKeeps(r: Registry, newcomer: Key, live: bool, k: Key)
    requires Inv(r) && newcomer !in r.conns
    ensures Keeps(r, Register(r, newcomer, live), k)
  {
    RegisterIsRegistered(r, newcomer, live);
    assert k in r.conns ==> ConnOk(r, k);
  }

  lemma DroppedKeeps(r: Registry, j: Key, k: Key)
    requires j in r.conns
    ensures Keeps(r, Dropped(r, j), k)
  {
  }

  lemma CloseKeeps(r: Registry, j: Key, k: Key)
    requires Inv(r) && j in r.conns
    ensures Keeps(r, Close(r, j), k)
  {
    DroppedKeeps(r, j, k);
    CloseIsDropped(r, j);
  }

  lemma AfterKeeps(r: Registry, e: Event, k: Key)
    requires Inv(r) && Possible(r, e)
    ensures Keeps(r, After(r, e), k)
  {
    match e
    case Arrive(j, live) => ArrivalKeeps(r, j, live, k);
    case Lose(j) => CloseKeeps(r, j, k);
    case Deliver(j, p, ok) => SendMatchIsDropped(r, j, p, ok);
    case Stop =>
      if k in r.conns && r.conns[k].phase == Closed {
        assert ConnOk(r, k) && k !in TrackedKeys(r);
      }
  }

  lemma {:induction false} KeptThroughout(run: seq<Registry>, i: nat, j: nat, k: Key)
    requires i <= j < |run|
    requires forall n :: i <= n < j ==> Keeps(run[n], run[n + 1], k)
    requires k in run[i].conns && run[i].conns[k].phase == Closed
    ensures k in run[j].conns && run[j].conns[k].phase == Closed
    ensures run[j].removals[k] == run[i].removals[k]
    decreases j - i
  {
    if i < j {
      KeptThroughout(run, i, j - 1, k);
      assert Keeps(run[j - 1], run[j - 1 + 1], k);
    }
  }

  /** A closed connection stays closed, and nothing is added to its removals. */
  lemma ClosedForGood(run: seq<Registry>, events: seq<Event>, i: nat, j: nat, k: Key)
    requires IsRun(run, events) && i <= j < |run|
    requires k in run[i].conns && run[i].conns[k].phase == Closed
    ensures k in run[j].conns && run[j].conns[k].phase == Closed
    ensures run[j].removals[k] == run[i].removals[k]
  {
    forall n | i <= n < j ensures Keeps(run[n], run[n + 1], k) {
      TrackedIffOpen(run, events, n);
      AfterKeeps(run[n], events[n], k);
    }
    KeptThroughout(run, i, j, k);
  }

  /** The ways in which a tracked connection closes. */
  predicate Ends(e: Event, k: Key) {
    e == Lose(k) || (e.Deliver? && e.key == k) || e == Stop
  }

  lemma EndRemoves(r: Registry, e: Event, k: Key)
    requires Inv(r) && Possible(r, e)
    requires k in r.conns && r.conns[k].phase == Open && Ends(e, k)
    ensures k in After(r, e).conns && After(r, e).conns[k].phase == Closed
    ensures After(r, e).removals[k] == 1
  {
    assert ConnOk(r, k);
    assert k in r.removals ==> RemovalOk(r, k);
    match e
    case Lose(j) => CloseIsDropped(r, j);
    case Deliver(j, p, ok) => SendMatchIsDropped(r, j, p, ok);
    case Stop => assert Key(k.login, r.tracked[k.login]) in TrackedKeys(r);
  }

  /** A tracked connection that closes has its queue status removed exactly once, ever. */
  lemma TrackedCloseRemovesOnce(run: seq<Registry>, events: seq<Event>, i: nat, j: nat, k: Key)
    requires IsRun(run, events) && i < |events| && i < j < |run|
    requires k in run[i].conns && run[i].conns[k].phase == Open && Ends(events[i], k)
    ensures run[j].removals[k] == 1
  {
    TrackedIffOpen(run, events, i);
    EndRemoves(run[i], events[i], k);
    ClosedForGood(run, events, i + 1, j, k);
  }

  lemma RegisteredReplaces(r: Registry, newcomer: Key, live: bool, k: Key)
    requires Inv(r) && newcomer !in r.conns && k in r.conns && r.conns[k].phase == Open
    ensures var q := Registered(r, newcomer, live);
            && k in q.conns && q.conns[k].phase != Init
            && (q.conns[k].phase == Closed ==>
                  newcomer.login == k.login && newcomer.ws > k.ws && q.removals[k] == 0)
  {
    assert ConnOk(r, k);
    assert k in r.removals ==> RemovalOk(r, k);
  }

  lemma ArrivalReplaces(r: Registry, newcomer: Key, live: bool, k: Key)
    requires Inv(r) && newcomer !in r.conns
    requires k in r.conns && r.conns[k].phase == Open
    requires Register(r, newcomer, live).conns.Keys >= {k}
    requires Register(r, newcomer, live).conns[k].phase != Open
    ensures newcomer.login == k.login && newcomer.ws > k.ws
    ensures Register(r, newcomer, live).conns[k].phase == Closed
    ensures Register(r, newcomer, live).removals[k] == 0
  {
    RegisteredReplaces(r, newcomer, live, k);
    RegisterIsRegistered(r, newcomer, live);
  }

  /**
   * Only a strictly newer websocket of the same login replaces a tracked
   * connection, and the queue status of the replaced one is never removed.
   */
  lemma ReplacedNeverRemoves(run: seq<Registry>, events: seq<Event>, i: nat, j: nat, k: Key)
    requires IsRun(run, events) && i < |events| && i < j < |run| && events[i].Arrive?
    requires k in run[i].conns && run[i].conns[k].phase == Open
    requires k in run[i + 1].conns && run[i + 1].conns[k].phase != Open
    ensures events[i].key.login == k.login && events[i].key.ws > k.ws
    ensures run[j].removals[k] == 0
  {
    TrackedIffOpen(run, events, i);
    ArrivalReplaces(run[i], events[i].key, events[i].live, k);
    ClosedForGood(run, events, i + 1, j, k);
  }

  lemma ArrivalRejected(r: Registry, k: Key, live: bool)
    requires Inv(r) && k !in r.conns
    requires k.login in r.tracked && r.tracked[k.login] > k.ws
    ensures var q := Register(r, k, live);
            q.tracked == r.tracked && k in q.conns && q.conns[k].phase == Closed && q.removals[k] == 0
  {
    assert k in r.removals ==> RemovalOk(r, k);
    RegisterIsRegistered(r, k, live);
  }

  /** A connection rejected for a strictly newer one is closed for good and never removes anything. */
  lemma RejectedNeverRemoves(run: seq<Registry>, events: seq<Event>, i: nat, j: nat, k: Key)
    requires IsRun(run, events) && i < |events| && i < j < |run|
    requires events[i].Arrive? && events[i].key == k
    requires k.login in run[i].tracked && run[i].tracked[k.login] > k.ws
    ensures run[i + 1].tracked == run[i].tracked
    ensures k in run[j].conns && run[j].conns[k].phase == Closed && run[j].removals[k] == 0
  {
    TrackedIffOpen(run, events, i);
    ArrivalRejected(run[i], k, events[i].live);
    ClosedForGood(run, events, i + 1, j, k);
  }

  /** The newest live websocket of a login is the one that is tracked. */
  lemma NewestIsTracked(run: seq<Registry>, events: seq<Event>, i: nat)
    requires IsRun(run, events) && i < |events| && events[i].Arrive? && events[i].live
    ensures var k, r := events[i].key, run[i];
            k.login in run[i + 1].tracked &&
            run[i + 1].tracked[k.login] ==
              if k.login in r.tracked && r.tracked[k.login] > k.ws then r.tracked[k.login] else k.ws
  {
    TrackedIffOpen(run, events, i);
    RegisterIsRegistered(run[i], events[i].key, true);
  }
}

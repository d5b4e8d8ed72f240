/**
 * One API instance's registry of websockets, with its re-entrant callbacks:
 * closing a connection emits `close`, the registry's listener deletes it, and
 * deleting closes it again.
 */
module Registry {
  import opened Base
  import opened Tables

  datatype Phase = Init | Open | Closed

  datatype Payload = Payload(login: Login, server: Option<ServerInfo>, token: Option<Token>)

  /** `listening` says that the registry listens to `close`; `sent` holds the match payloads sent. */
  datatype Conn = Conn(phase: Phase, listening: bool, sent: seq<Payload>)

  /** `tracked` is the Map by login; `removals` counts the calls of `removeQueueStatus`. */
  datatype Registry = Registry(
    conns: map<Key, Conn>,
    tracked: map<Login, nat>,
    removals: multiset<Key>)

  const EMPTY_REGISTRY := Registry(map[], map[], multiset{})

  predicate Tracks(r: Registry, k: Key) {
    k.login in r.tracked && r.tracked[k.login] == k.ws
  }

  function TrackedKeys(r: Registry): set<Key> {
    set l | l in r.tracked :: Key(l, r.tracked[l])
  }

  // ----- The code's recursion -----

  /** `Connection.close` followed by its `close` event. A key that names no connection closes none. */
  function Close(r: Registry, k: Key): (q: Registry)
    ensures q.conns.Keys == r.conns.Keys && |q.tracked| <= |r.tracked|
    decreases |r.tracked|, 1
  {
    if k !in r.conns || r.conns[k].phase == Closed then r
    else
      var r1 := r.(conns := r.conns[k := r.conns[k].(phase := Closed)]);
      if r.conns[k].listening then Delete(r1, k) else r1
  }

  /** `Connections.delete`. */
  function Delete(r: Registry, k: Key): (q: Registry)
    ensures q.conns.Keys == r.conns.Keys && |q.tracked| <= |r.tracked|
    decreases |r.tracked|, 0
  {
    if !Tracks(r, k) then r
    else
      var rest := r.tracked - {k.login};
      assert r.tracked.Keys == rest.Keys + {k.login};
      var r1 := Close(r.(tracked := rest), k);
      r1.(removals := r1.removals + multiset{k})
  }

  /** `Connection.open` on a connection in state INIT; `live` says that its socket is open. */
  function OpenConn(r: Registry, k: Key, live: bool): Registry
    requires k in r.conns
  {
    if live then r.(conns := r.conns[k := r.conns[k].(phase := Open)]) else Close(r, k)
  }

  /** The newcomer is in the Map, is listened to, and is not open yet. */
  function Listed(r: Registry, k: Key): Registry {
    r.(conns := r.conns[k := Conn(Init, true, [])], tracked := r.tracked[k.login := k.ws])
  }

  /** `Connections.set` on a new connection. */
  function Register(r: Registry, k: Key, live: bool): Registry
    requires k !in r.conns
  {
    if k.login in r.tracked && r.tracked[k.login] > k.ws then
      Close(r.(conns := r.conns[k := Conn(Init, false, [])]), k)
    else
      var r1 := Listed(r, k);
      var r2 := if k.login in r.tracked then Close(r1, Key(k.login, r.tracked[k.login])) else r1;
      OpenConn(r2, k, live)
  }

  /** `Connection.sendMatchAndClose`; `ok` says that the socket is open and the send succeeds. */
  function SendMatch(r: Registry, k: Key, p: Payload, ok: bool): Registry
    requires k in r.conns
  {
    if r.conns[k].phase != Open then r
    else if ok then Close(r.(conns := r.conns[k := r.conns[k].(sent := r.conns[k].sent + [p])]), k)
    else Close(r, k)
  }

  // ----- What the recursion amounts to -----

  /** Closing one connection, without recursion. */
  function Dropped(r: Registry, k: Key): Registry
    requires k in r.conns
  {
    if r.conns[k].phase == Closed then r
    else
      var gone := r.conns[k].listening && Tracks(r, k);
      Registry(
        r.conns[k := r.conns[k].(phase := Closed)],
        if gone then r.tracked - {k.login} else r.tracked,
        if gone then r.removals + multiset{k} else r.removals)
  }

  /** The callbacks meet their own tracks: each ends after one round. */
  lemma CloseIsDropped(r: Registry, k: Key)
    requires k in r.conns
    ensures Close(r, k) == Dropped(r, k)
  {
    if r.conns[k].phase != Closed && r.conns[k].listening && Tracks(r, k) {
      var r1 := r.(conns := r.conns[k := r.conns[k].(phase := Closed)]);
      assert Close(r1.(tracked := r1.tracked - {k.login}), k) == r1.(tracked := r1.tracked - {k.login});
    }
  }

  /** `Connections.close`: every tracked connection is closed and the Map cleared. */
  function Shutdown(r: Registry): Registry
  {
    Registry(
      map k | k in r.conns :: if Tracks(r, k) then r.conns[k].(phase := Closed) else r.conns[k],
      map[],
      r.removals + multiset(TrackedKeys(r)))
  }

  // ----- The invariant -----

  /** A connection is in the Map if and only if it is open; it is sent at most one payload, and then closed. */
  predicate ConnOk(r: Registry, k: Key)
    requires k in r.conns
  {
    var c := r.conns[k];
    && c.phase != Init
    && (c.phase == Open <==> Tracks(r, k))
    && (c.phase == Open ==> c.listening && c.sent == [])
    && |c.sent| <= 1
  }

  predicate RemovalOk(r: Registry, k: Key) {
    r.removals[k] == 1 && k in r.conns && r.conns[k].phase == Closed
  }

  ghost predicate Inv(r: Registry) {
    && (forall l :: l in r.tracked ==> Key(l, r.tracked[l]) in r.conns)
    && (forall k :: k in r.conns ==> ConnOk(r, k))
    && (forall k :: k in r.removals ==> RemovalOk(r, k))
  }

  lemma DroppedInv(r: Registry, k: Key)
    requires Inv(r) && k in r.conns
    ensures Inv(Dropped(r, k))
  {
    var q := Dropped(r, k);
    forall j | j in q.conns ensures ConnOk(q, j) {
      assert ConnOk(r, j) && ConnOk(r, k);
    }
    forall j | j in q.removals ensures RemovalOk(q, j) {
      assert ConnOk(r, k);
      if j in r.removals {
        assert RemovalOk(r, j);
      }
    }
    forall l | l in q.tracked ensures Key(l, q.tracked[l]) in q.conns {
      assert l in r.tracked;
    }
  }

  lemma CloseInv(r: Registry, k: Key)
    requires Inv(r) && k in r.conns
    ensures Inv(Close(r, k))
  {
    CloseIsDropped(r, k);
    DroppedInv(r, k);
  }

  /** Sending and closing: the payload is on record exactly when it went out. */
  lemma SendMatchIsDropped(r: Registry, k: Key, p: Payload, ok: bool)
    requires k in r.conns
    ensures SendMatch(r, k, p, ok) ==
            if r.conns[k].phase != Open then r
            else if ok then
              var closed := r.conns[k].(phase := Closed, sent := r.conns[k].sent + [p]);
              Dropped(r, k).(conns := Dropped(r, k).conns[k := closed])
            else Dropped(r, k)
  {
    var c := r.conns[k];
    CloseIsDropped(r.(conns := r.conns[k := c.(sent := c.sent + [p])]), k);
    CloseIsDropped(r, k);
  }

  lemma SendMatchInv(r: Registry, k: Key, p: Payload, ok: bool)
    requires Inv(r) && k in r.conns
    ensures Inv(SendMatch(r, k, p, ok))
  {
    SendMatchIsDropped(r, k, p, ok);
    DroppedInv(r, k);
    if r.conns[k].phase == Open && ok {
      var d, q := Dropped(r, k), SendMatch(r, k, p, ok);
      assert ConnOk(r, k);
      forall j | j in q.conns ensures ConnOk(q, j) {
        assert ConnOk(d, j);
      }
      forall j | j in q.removals ensures RemovalOk(q, j) {
        assert RemovalOk(d, j);
      }
    }
  }

  lemma ShutdownInv(r: Registry)
    requires Inv(r)
    ensures Inv(Shutdown(r))
  {
    var q := Shutdown(r);
    forall j | j in q.conns ensures ConnOk(q, j) {
      assert ConnOk(r, j);
    }
    forall k | k in q.removals ensures RemovalOk(q, k) {
      if k in r.removals {
        assert RemovalOk(r, k);
      }
      if k in TrackedKeys(r) {
        assert Tracks(r, k) && ConnOk(r, k);
      }
    }
  }

  /** The connections that a shutdown which has reached the logins `done` has closed. */
  function ClosedKeys(r: Registry, done: set<Login>): set<Key> {
    set l | l in r.tracked && l in done :: Key(l, r.tracked[l])
  }

  /** Part of `Connections.close`: only the connections of the logins `done` are closed yet. */
  function ClosedFor(r: Registry, done: set<Login>): (q: Registry)
    ensures q.conns.Keys == r.conns.Keys
  {
    Registry(
      map k | k in r.conns :: if Tracks(r, k) && k.login in done then r.conns[k].(phase := Closed) else r.conns[k],
      r.tracked - done,
      r.removals + multiset(ClosedKeys(r, done)))
  }

  lemma MultisetPlus<T>(s: set<T>, x: T)
    requires x !in s
    ensures multiset(s + {x}) == multiset(s) + multiset{x}
  {
  }

  lemma ClosedKeysNext(r: Registry, done: set<Login>, l: Login)
    requires l in r.tracked && l !in done
    ensures multiset(ClosedKeys(r, done + {l})) == multiset(ClosedKeys(r, done)) + multiset{Key(l, r.tracked[l])}
  {
    var k := Key(l, r.tracked[l]);
    assert ClosedKeys(r, done + {l}) == ClosedKeys(r, done) + {k};
    MultisetPlus(ClosedKeys(r, done), k);
  }

  lemma ClosedConnsNext(r: Registry, done: set<Login>, l: Login)
    requires l in r.tracked && l !in done && Key(l, r.tracked[l]) in r.conns
    ensures var k, q := Key(l, r.tracked[l]), ClosedFor(r, done);
            q.conns[k] == r.conns[k] &&
            q.conns[k := r.conns[k].(phase := Closed)] == ClosedFor(r, done + {l}).conns
  {
  }

  /** The order does not matter: closing one more connection is `close` getting on with its loop. */
  lemma ClosedForNext(r: Registry, done: set<Login>, l: Login)
    requires Inv(r)
    requires l in r.tracked && l !in done && Key(l, r.tracked[l]) in r.conns
    ensures Close(ClosedFor(r, done), Key(l, r.tracked[l])) == ClosedFor(r, done + {l})
  {
    var k, q, p := Key(l, r.tracked[l]), ClosedFor(r, done), ClosedFor(r, done + {l});
    CloseIsDropped(q, k);
    ClosedConnsNext(r, done, l);
    ClosedKeysNext(r, done, l);
    assert ConnOk(r, k);
    assert q.tracked - {l} == p.tracked;
    assert q.removals + multiset{k} == p.removals;
  }

  /** When no connection is left, the loop has done what `close` is for. */
  lemma ClosedForAll(r: Registry, done: set<Login>)
    requires r.tracked.Keys <= done
    ensures ClosedFor(r, done) == Shutdown(r)
  {
    assert ClosedKeys(r, done) == TrackedKeys(r);
    assert ClosedFor(r, done).conns == Shutdown(r).conns;
    assert r.tracked - done == map[];
  }

  lemma ClosedForNone(r: Registry)
    ensures ClosedFor(r, {}) == r
  {
    assert ClosedFor(r, {}).conns == r.conns;
    assert ClosedKeys(r, {}) == {};
  }

  /** The connections once a newcomer has taken the place of the tracked one of `l`. */
  function Replaced(r: Registry, l: Login): (m: map<Key, Conn>)
    ensures m.Keys == r.conns.Keys
    ensures l !in r.tracked ==> m == r.conns
  {
    var m := map j | j in r.conns ::
      if j.login == l && Tracks(r, j) then r.conns[j].(phase := Closed) else r.conns[j];
    m
  }

  /**
   * What `set` decides. It rejects the newcomer exactly when a strictly newer
   * websocket of that login is tracked; otherwise it closes the older one, and
   * tracks the newcomer if its socket is still open. Neither a rejected nor a
   * replaced connection has its queue status removed; a newcomer whose socket
   * is already gone has.
   */
  function Registered(r: Registry, k: Key, live: bool): Registry
    requires k !in r.conns
  {
    if k.login in r.tracked && r.tracked[k.login] > k.ws then
      r.(conns := r.conns[k := Conn(Closed, false, [])])
    else
      Registry(
        Replaced(r, k.login)[k := Conn(if live then Open else Closed, true, [])],
        if live then r.tracked[k.login := k.ws] else r.tracked - {k.login},
        if live then r.removals else r.removals + multiset{k})
  }

  lemma RejectIsRegistered(r: Registry, k: Key, live: bool)
    requires k !in r.conns
    requires k.login in r.tracked && r.tracked[k.login] > k.ws
    ensures Register(r, k, live) == Registered(r, k, live)
  {
    CloseIsDropped(r.(conns := r.conns[k := Conn(Init, false, [])]), k);
  }

  lemma OpenIsRegistered(r: Registry, k: Key, live: bool)
    requires k in r.conns && r.conns[k] == Conn(Init, true, []) && Tracks(r, k)
    ensures OpenConn(r, k, live) ==
            Registry(
              r.conns[k := Conn(if live then Open else Closed, true, [])],
              if live then r.tracked else r.tracked - {k.login},
              if live then r.removals else r.removals + multiset{k})
  {
    CloseIsDropped(r, k);
  }

  /** The registry once the newcomer is tracked and before it is opened. */
  function Tracking(r: Registry, k: Key): Registry {
    Registry(Replaced(r, k.login)[k := Conn(Init, true, [])], r.tracked[k.login := k.ws], r.removals)
  }

  /** Replacing an older connection closes it and leaves the Map to the newcomer. */
  lemma ReplaceIsTracking(r: Registry, k: Key, prior: Key, live: bool)
    requires Inv(r) && k !in r.conns
    requires Tracks(r, prior) && prior.login == k.login && prior.ws <= k.ws && prior in r.conns
    ensures Register(r, k, live) == OpenConn(Tracking(r, k), k, live)
  {
    assert prior == Key(k.login, r.tracked[k.login]);
    var r1 := r.(conns := r.conns[k := Conn(Init, true, [])],
                 tracked := r.tracked[k.login := k.ws]);
    CloseIsDropped(r1, prior);
    assert ConnOk(r, prior);
    assert Close(r1, prior) == r1.(conns := r1.conns[prior := r1.conns[prior].(phase := Closed)]);
    var want := Tracking(r, k).conns;
    forall j | j in want ensures want[j] == Close(r1, prior).conns[j] {
    }
    assert want == Close(r1, prior).conns;
  }

  lemma AddIsTracking(r: Registry, k: Key, live: bool)
    requires k !in r.conns && k.login !in r.tracked
    ensures Register(r, k, live) == OpenConn(Tracking(r, k), k, live)
  {
  }

  lemma PutTwice<K, V>(m: map<K, V>, k: K, a: V, b: V)
    ensures m[k := a][k := b] == m[k := b]
  {
  }

  lemma PutThenRemove<K, V>(m: map<K, V>, k: K, a: V)
    ensures m[k := a] - {k} == m - {k}
  {
  }

  /** Setting the Map and listening, one after the other, on a connection that is known already. */
  lemma ListedInSteps(r: Registry, k: Key)
    ensures var r0 := r.(conns := r.conns[k := Conn(Init, false, [])]);
            var r1 := r0.(tracked := r0.tracked[k.login := k.ws]);
            r1.(conns := r1.conns[k := r1.conns[k].(listening := true)]) == Listed(r, k)
  {
    PutTwice(r.conns, k, Conn(Init, false, []), Conn(Init, true, []));
  }

  lemma TrackingIsRegistered(r: Registry, k: Key, live: bool)
    requires k !in r.conns
    requires k.login in r.tracked ==> r.tracked[k.login] <= k.ws
    ensures OpenConn(Tracking(r, k), k, live) == Registered(r, k, live)
  {
    OpenIsRegistered(Tracking(r, k), k, live);
    PutTwice(Replaced(r, k.login), k, Conn(Init, true, []), Conn(if live then Open else Closed, true, []));
    PutThenRemove(r.tracked, k.login, k.ws);
  }

  lemma RegisterIsRegistered(r: Registry, k: Key, live: bool)
    requires Inv(r) && k !in r.conns
    ensures Register(r, k, live) == Registered(r, k, live)
  {
    if k.login !in r.tracked {
      AddIsTracking(r, k, live);
      TrackingIsRegistered(r, k, live);
    } else if r.tracked[k.login] > k.ws {
      RejectIsRegistered(r, k, live);
    } else {
      ReplaceIsTracking(r, k, Key(k.login, r.tracked[k.login]), live);
      TrackingIsRegistered(r, k, live);
    }
  }

  lemma RegisteredConns(r: Registry, k: Key, live: bool)
    requires Inv(r) && k !in r.conns
    ensures var q := Registered(r, k, live); forall j :: j in q.conns ==> ConnOk(q, j)
  {
    var q := Registered(r, k, live);
    forall j | j in q.conns ensures ConnOk(q, j) {
      if j != k {
        assert ConnOk(r, j);
      }
    }
  }

  lemma RegisteredRemovals(r: Registry, k: Key, live: bool)
    requires Inv(r) && k !in r.conns
    ensures var q := Registered(r, k, live); forall j :: j in q.removals ==> RemovalOk(q, j)
  {
    var q := Registered(r, k, live);
    forall j | j in q.removals ensures RemovalOk(q, j) {
      if j != k {
        assert RemovalOk(r, j);
      } else {
        assert j in r.removals ==> RemovalOk(r, j);
      }
    }
  }

  lemma RegisterInv(r: Registry, k: Key, live: bool)
    requires Inv(r) && k !in r.conns
    ensures Inv(Register(r, k, live))
  {
    RegisterIsRegistered(r, k, live);
    RegisteredConns(r, k, live);
    RegisteredRemovals(r, k, live);
    var q := Registered(r, k, live);
    forall l | l in q.tracked ensures Key(l, q.tracked[l]) in q.conns {
      if l != k.login {
        assert l in r.tracked;
      }
    }
  }
}

/**
 * The API's websocket objects: connections that the event handlers update in
 * place, and the Map that tracks them. Each method is proved against the
 * specification of its callbacks (module Registry) and of the ping/pong
 * watchdog (module Watchdog). What the socket itself does is a parameter.
 */
module WebSockets {
  import opened Base
  import opened Tables
  import R = Registry
  import W = Watchdog

  datatype SendOutcome = SocketGone | SendThrew | SendDone

  class Connection {
    const login: Login
    const websocketId: nat
    const options: W.Options
    var state: R.Phase
    var pingSeq: nat
    var missedPongs: nat
    var waitingForPing: bool
    var pingTimer: bool
    var pongTimer: bool
    var terminated: bool
    var listener: Connections?
    var sent: seq<R.Payload>

    constructor (login: Login, websocketId: nat, options: W.Options)
      ensures this.login == login && this.websocketId == websocketId && this.options == options
      ensures Fresh()
    {
      this.login, this.websocketId, this.options := login, websocketId, options;
      state, pingSeq, missedPongs, waitingForPing := R.Init, 0, 0, false;
      pingTimer, pongTimer, terminated := false, false, false;
      listener, sent := null, [];
    }

    function Id(): Key {
      Key(login, websocketId)
    }

    function Watched(): W.Watch
      reads this
    {
      W.Watch(state, pingSeq, missedPongs, waitingForPing, pingTimer, pongTimer, terminated)
    }

    function Value(): R.Conn
      reads this
    {
      R.Conn(state, listener != null, sent)
    }

    /** As the constructor leaves it. */
    predicate Fresh()
      reads this
    {
      Watched() == W.NEW_WATCH && Value() == R.Conn(R.Init, false, [])
    }

    /** Opens the connection, unless its socket is gone already; throws if it was opened or closed before. */
    method Open(live: bool, ghost owner: Connections, ghost r: R.Registry) returns (thrown: bool)
      requires owner.Shows(r) && owner.Knows(this)
      modifies owner, owner.all.Values
      ensures owner.all == old(owner.all)
      ensures thrown <==> old(state) != R.Init
      ensures thrown ==> owner.Shows(r) && Watched() == old(Watched())
      ensures !thrown ==> owner.Shows(R.OpenConn(r, Id(), live))
      ensures !thrown ==>
                Watched() == if live then W.Opened(old(Watched())) else W.ClosedBy(old(Watched()), false)
      ensures owner.OthersKeep(Id())
    {
      if state != R.Init {
        return true;
      }
      owner.Apart(this, r);
      if !live {
        Close(false, owner, r);
        return false;
      }
      state := R.Open;
      pingTimer := true;
      owner.Updated(this, r);
      return false;
    }

    /** The ping timer fires. */
    method SendPing(ping: W.PingOutcome, ghost owner: Connections, ghost r: R.Registry)
      requires owner.Shows(r) && owner.Knows(this)
      modifies owner, owner.all.Values
      ensures owner.all == old(owner.all)
      ensures Watched() == W.PingFired(old(Watched()), ping)
      ensures owner.Shows(if Watched().phase == old(state) then r else R.Close(r, Id()))
      ensures owner.OthersKeep(Id())
    {
      if state != R.Open {
        return;
      }
      if ping == W.SocketGone {
        Close(false, owner, r);
        return;
      }
      if waitingForPing {
        return;
      }
      BeginRound(owner, r);
      if ping == W.PingThrew {
        Close(false, owner, r);
        return;
      }
      pongTimer := true;
    }

    /** Begins the round of a ping. */
    method BeginRound(ghost owner: Connections, ghost r: R.Registry)
      requires owner.Shows(r) && owner.Knows(this)
      modifies this`waitingForPing
      ensures Watched() == old(Watched()).(waiting := true)
      ensures owner.Shows(r)
      ensures owner.OthersKeep(Id())
    {
      owner.Apart(this, r);
      waitingForPing := true;
      owner.Updated(this, r);
    }

    /** A pong arrives; `data` is the number its payload spells, if it spells one. */
    method OnPong(data: Option<nat>)
      modifies this`waitingForPing, this`missedPongs, this`pingSeq, this`pongTimer
      ensures Watched() == W.PongArrived(old(Watched()), data)
      ensures if old(state == R.Open && waitingForPing && data == Some(pingSeq))
              then !waitingForPing && missedPongs == 0 && pingSeq == old(pingSeq) + 1 && !pongTimer
              else Watched() == old(Watched())
    {
      if state != R.Open {
        return;
      }
      if !waitingForPing {
        return;
      }
      if data != Some(pingSeq) {
        return;
      }
      waitingForPing := false;
      missedPongs := 0;
      pingSeq := pingSeq + 1;
      pongTimer := false;
    }

    /** The pong timer fires for the ping numbered `seqNo`. */
    method OnPongMiss(seqNo: nat, ghost owner: Connections, ghost r: R.Registry)
      requires owner.Shows(r) && owner.Knows(this)
      modifies owner, owner.all.Values
      ensures owner.all == old(owner.all)
      ensures Watched() == if seqNo == old(pingSeq) then W.PongTimedOut(old(Watched()), options) else old(Watched())
      ensures old(state == R.Open && waitingForPing && seqNo == pingSeq) ==>
                && missedPongs == old(missedPongs) + 1 && pingSeq == old(pingSeq) + 1 && !waitingForPing && !pongTimer
                && (if missedPongs > options.maxMissedPongs then state == R.Closed && terminated && !pingTimer
                    else state == R.Open && pingTimer == old(pingTimer))
      ensures owner.Shows(if Watched().phase == old(state) then r else R.Close(r, Id()))
      ensures owner.OthersKeep(Id())
    {
      if state != R.Open {
        return;
      }
      if !waitingForPing {
        return;
      }
      if seqNo != pingSeq {
        return;
      }
      CountMiss(owner, r);
      if missedPongs > options.maxMissedPongs {
        Close(true, owner, r);
      }
    }

    /** Ends the round of an unanswered ping. */
    method CountMiss(ghost owner: Connections, ghost r: R.Registry)
      requires owner.Shows(r) && owner.Knows(this)
      modifies this`waitingForPing, this`missedPongs, this`pingSeq, this`pongTimer
      ensures Watched() ==
              old(Watched().(waiting := false, missed := missedPongs + 1, pingSeq := pingSeq + 1, pongTimer := false))
      ensures owner.Shows(r)
      ensures owner.OthersKeep(Id())
    {
      owner.Apart(this, r);
      waitingForPing := false;
      missedPongs := missedPongs + 1;
      pingSeq := pingSeq + 1;
      pongTimer := false;
      owner.Updated(this, r);
    }

    /** Sends the match and closes the connection, whether or not the send works. */
    method SendMatchAndClose(payload: R.Payload, send: SendOutcome, ghost owner: Connections, ghost r: R.Registry)
      requires owner.Shows(r) && owner.Knows(this)
      modifies owner, owner.all.Values
      ensures owner.all == old(owner.all)
      ensures owner.Shows(R.SendMatch(r, Id(), payload, send == SendDone))
      ensures Watched() == if old(state) == R.Open then W.ClosedBy(old(Watched()), false) else old(Watched())
      ensures old(state) == R.Open ==> state == R.Closed && !pingTimer && !pongTimer
      ensures sent == if old(state) == R.Open && send == SendDone then old(sent) + [payload] else old(sent)
      ensures owner.OthersKeep(Id())
    {
      if state != R.Open {
        return;
      }
      ghost var shown := r;
      if send == SendDone {
        owner.Apart(this, r);
        sent := sent + [payload];
        shown := r.(conns := r.conns[Id() := r.conns[Id()].(sent := sent)]);
        owner.Updated(this, r);
      }
      R.CloseIsDropped(shown, Id());
      Close(false, owner, shown);
    }

    /** Enters the closed state: the timers stop and the socket is closed or terminated. */
    method Finish(hard: bool, ghost owner: Connections, ghost r: R.Registry)
      requires owner.Shows(r) && owner.Knows(this) && state != R.Closed
      modifies this`state, this`pingTimer, this`pongTimer, this`terminated
      ensures owner.Shows(r.(conns := r.conns[Id() := r.conns[Id()].(phase := R.Closed)]))
      ensures Watched() == W.ClosedBy(old(Watched()), hard)
      ensures owner.OthersKeep(Id())
    {
      owner.Apart(this, r);
      state := R.Closed;
      pingTimer, pongTimer := false, false;
      terminated := hard;
      owner.Updated(this, r);
    }

    /** Closes the connection and tells the listener, which deletes it and closes it again. */
    method Close(hard: bool, ghost owner: Connections, ghost r: R.Registry)
      requires owner.Shows(r) && owner.Knows(this)
      modifies owner, owner.all.Values
      ensures owner.all == old(owner.all) && owner.Shows(R.Close(r, Id()))
      ensures Watched() == W.ClosedBy(old(Watched()), hard)
      ensures state == R.Closed && (old(state) != R.Closed ==> !pingTimer && !pongTimer && terminated == hard)
      ensures owner.OthersKeep(Id())
      decreases owner.tracked.Keys, 1
    {
      if state == R.Closed {
        return;
      }
      ghost var r1 := r.(conns := r.conns[Id() := r.conns[Id()].(phase := R.Closed)]);
      Finish(hard, owner, r);
      if listener != null {
        listener.Delete(login, websocketId, r1);
      }
    }
  }

  class Connections {
    var tracked: map<Login, Connection>
    /** The calls of `removeQueueStatus`. */
    var removals: multiset<Key>
    /** Every connection ever passed to `Set`; websocket ids are distinct. */
    ghost var all: map<Key, Connection>

    constructor ()
      ensures Shows(R.EMPTY_REGISTRY) && all == map[]
    {
      tracked, removals, all := map[], multiset{}, map[];
    }

    ghost predicate Knows(c: Connection)
      reads this`all
    {
      c.Id() in all && all[c.Id()] == c
    }

    ghost predicate ShowsTracked(t: map<Login, nat>)
      reads this`all, this`tracked
    {
      && tracked.Keys == t.Keys
      && forall l :: l in tracked ==> Knows(tracked[l]) && tracked[l].Id() == Key(l, t[l])
    }

    ghost predicate ShowsConn(c: R.Conn, k: Key)
      requires k in all
      reads this`all, all[k]
    {
      && all[k].Id() == k
      && all[k].Value() == c
      && (all[k].listener == null || all[k].listener == this)
    }

    ghost predicate ShowsConns(m: map<Key, R.Conn>)
      reads this`all, all.Values
    {
      all.Keys == m.Keys && forall k :: k in all ==> ShowsConn(m[k], k)
    }

    /** The objects hold exactly what the registry `r` says. */
    ghost predicate Shows(r: R.Registry)
      reads this, all.Values
    {
      ShowsTracked(r.tracked) && ShowsConns(r.conns) && removals == r.removals
    }

    /** No watchdog but that of `k` has changed. */
    twostate predicate OthersKeep(k: Key)
      reads this, all.Values
    {
      all == old(all) && forall j :: j in all && j != k ==> all[j].Watched() == old(all[j].Watched())
    }

    ghost predicate ShowsConnsBut(m: map<Key, R.Conn>, j: Key)
      reads this`all, all.Values
    {
      all.Keys == m.Keys && forall k :: k in all && k != j ==> ShowsConn(m[k], k)
    }

    /** The objects hold what `r` says, except perhaps in the entry of `j`. */
    ghost predicate ShowsBut(r: R.Registry, j: Key)
      reads this, all.Values
    {
      ShowsTracked(r.tracked) && ShowsConnsBut(r.conns, j) && removals == r.removals
    }

    /** Different ids are different connections. */
    lemma Apart(c: Connection, r: R.Registry)
      requires Shows(r) && Knows(c)
      ensures forall k :: k in all && k != c.Id() ==> all[k] != c
      ensures ShowsConnsBut(r.conns, c.Id())
    {
      forall k | k in all && k != c.Id() ensures all[k] != c {
        assert ShowsConn(r.conns[k], k);
      }
    }

    /** When one connection has changed, the registry differs in its entry alone. */
    lemma Updated(c: Connection, r: R.Registry)
      requires Knows(c) && ShowsBut(r, c.Id()) && (c.listener == null || c.listener == this)
      ensures Shows(r.(conns := r.conns[c.Id() := c.Value()]))
      ensures c.Value() == r.conns[c.Id()] ==> Shows(r)
    {
      var m := r.conns[c.Id() := c.Value()];
      forall k | k in all ensures ShowsConn(m[k], k) {
        assert k != c.Id() ==> ShowsConn(r.conns[k], k);
      }
      assert c.Value() == r.conns[c.Id()] ==> m == r.conns;
    }

    /** A newly constructed connection, before `Set` sees it. */
    ghost method Meet(c: Connection, r: R.Registry)
      requires Shows(r) && c.Id() !in all && c !in all.Values && c.Fresh()
      modifies this`all
      ensures all == old(all)[c.Id() := c] && ShowsBeside(r, c)
    {
      all := all[c.Id() := c];
      var m := r.conns[c.Id() := R.Conn(R.Init, false, [])];
      forall k | k in all ensures ShowsConn(m[k], k) {
        assert k != c.Id() ==> old(ShowsConn(r.conns[k], k));
      }
      assert ShowsTracked(r.tracked) by {
        assert forall l :: l in tracked ==> old(Knows(tracked[l]));
      }
    }

    /** Puts a connection in the Map. */
    method Track(c: Connection, ghost r: R.Registry)
      requires Shows(r) && Knows(c)
      modifies this`tracked
      ensures all == old(all) && Shows(r.(tracked := r.tracked[c.login := c.websocketId]))
    {
      ghost var r1 := r.(tracked := r.tracked[c.login := c.websocketId]);
      tracked := tracked - {c.login};
      tracked := tracked[c.login := c];
      assert ShowsConns(r1.conns);
      assert ShowsTracked(r1.tracked);
    }

    /** Listens to the `close` of a connection. */
    method Listen(c: Connection, ghost r: R.Registry)
      requires Shows(r) && Knows(c)
      modifies c`listener
      ensures all == old(all)
      ensures Shows(r.(conns := r.conns[c.Id() := r.conns[c.Id()].(listening := true)]))
      ensures forall k :: k in all ==> all[k].Watched() == old(all[k].Watched())
    {
      Apart(c, r);
      c.listener := this;
      Updated(c, r);
    }

    /** Closes the connection that a newcomer replaces, and opens the newcomer. */
    method OpenInPlaceOf(c: Connection, existing: Connection?, live: bool, ghost r: R.Registry)
      requires Shows(r) && Knows(c) && c.state == R.Init
      requires existing != null ==> Knows(existing) && existing != c
      modifies this, all.Values
      ensures all == old(all)
      ensures Shows(R.OpenConn(if existing == null then r else R.Close(r, existing.Id()), c.Id(), live))
      ensures c.Watched() == if live then W.Opened(old(c.Watched())) else W.ClosedBy(old(c.Watched()), false)
      ensures OnlyCloses(c, existing)
    {
      ghost var q := r;
      if existing != null {
        assert existing.Id() != c.Id();
        existing.Close(false, this, r);
        q := R.Close(r, existing.Id());
      }
      var _ := c.Open(live, this, q);
    }

    /** A newcomer that `Set` has not seen: the objects show `r` and, besides, the new connection. */
    ghost predicate ShowsBeside(r: R.Registry, c: Connection)
      reads this, all.Values
    {
      && Knows(c) && c.Watched() == W.NEW_WATCH && c.Id() !in r.conns && !R.Tracks(r, c.Id())
      && Shows(r.(conns := r.conns[c.Id() := R.Conn(R.Init, false, [])]))
    }

    /** The tracked connection of a login, or null. */
    function Lookup(l: Login): Connection?
      reads this`tracked
    {
      if l in tracked then tracked[l] else null
    }

    /** The connection that `c` is to replace: none if a strictly newer one is tracked. */
    function Replaced(c: Connection): Connection?
      reads this`tracked
    {
      var existing := Lookup(c.login);
      if existing == null || existing.websocketId > c.websocketId then null else existing
    }

    /** A strictly newer websocket of the login is tracked. */
    predicate Rejected(login: Login, websocketId: nat)
      reads this`tracked
    {
      Lookup(login) != null && Lookup(login).websocketId > websocketId
    }

    /** Of all watchdogs but that of `c` only that of `closed`, if any, has changed: its timers have stopped. */
    twostate predicate OnlyCloses(c: Connection, closed: Connection?)
      reads this, all.Values
    {
      forall k :: k in all && k in old(all) && all[k] == old(all[k]) && all[k] != c ==>
        all[k].Watched() == if all[k] == closed then W.ClosedBy(old(all[k].Watched()), false) else old(all[k].Watched())
    }

    /**
     * Registers a new connection: it takes the place of an older one of its
     * login, or is closed at once if a strictly newer one is tracked. `live`
     * says whether its socket is still open when it is opened.
     */
    method Set(connection: Connection, live: bool, ghost r: R.Registry)
      requires ShowsBeside(r, connection)
      modifies this, all.Values
      ensures all == old(all) && Shows(R.Register(r, connection.Id(), live))
      ensures connection.Watched() ==
              if live && !old(Rejected(connection.login, connection.websocketId))
              then W.Opened(W.NEW_WATCH) else W.ClosedBy(W.NEW_WATCH, false)
      ensures OnlyCloses(connection, old(Replaced(connection)))
    {
      var existing := Lookup(connection.login);
      if existing != null && existing.websocketId > connection.websocketId {
        Reject(connection, r, live);
        return;
      }
      Admit(connection, existing, live, r);
    }

    method Reject(connection: Connection, ghost r: R.Registry, ghost live: bool)
      requires ShowsBeside(r, connection) && Rejected(connection.login, connection.websocketId)
      modifies this, all.Values
      ensures all == old(all) && Shows(R.Register(r, connection.Id(), live))
      ensures connection.Watched() == W.ClosedBy(W.NEW_WATCH, false)
      ensures OnlyCloses(connection, null)
    {
      ghost var r0 := r.(conns := r.conns[connection.Id() := R.Conn(R.Init, false, [])]);
      assert R.Register(r, connection.Id(), live) == R.Close(r0, connection.Id());
      connection.Close(false, this, r0);
    }

    method Admit(connection: Connection, existing: Connection?, live: bool, ghost r: R.Registry)
      requires ShowsBeside(r, connection) && existing == Lookup(connection.login)
      requires !Rejected(connection.login, connection.websocketId)
      modifies this, all.Values
      ensures all == old(all) && Shows(R.Register(r, connection.Id(), live))
      ensures connection.Watched() == if live then W.Opened(W.NEW_WATCH) else W.ClosedBy(W.NEW_WATCH, false)
      ensures OnlyCloses(connection, existing)
    {
      ghost var k, r1 := connection.Id(), R.Listed(r, connection.Id());
      assert R.Register(r, k, live) == R.OpenConn(if existing == null then r1 else R.Close(r1, existing.Id()), k, live);
      assert existing != connection;
      Enlist(connection, r);
      OpenInPlaceOf(connection, existing, live, r1);
    }

    /** Puts a new connection in the Map and listens to it. */
    method Enlist(c: Connection, ghost r: R.Registry)
      requires ShowsBeside(r, c)
      modifies this, all.Values
      ensures all == old(all) && Shows(R.Listed(r, c.Id()))
      ensures forall k :: k in all ==> all[k].Watched() == old(all[k].Watched())
    {
      ghost var r0 := r.(conns := r.conns[c.Id() := R.Conn(R.Init, false, [])]);
      ghost var r1 := r0.(tracked := r0.tracked[c.login := c.websocketId]);
      R.ListedInSteps(r, c.Id());
      Track(c, r0);
      Listen(c, r1);
    }

    /** Meets and sets a new connection. */
    method Introduce(connection: Connection, live: bool, ghost r: R.Registry)
      requires Shows(r) && connection.Fresh() && connection.Id() !in all && connection !in all.Values
      modifies this, connection, all.Values
      ensures all == old(all)[connection.Id() := connection]
      ensures Shows(R.Register(r, connection.Id(), live))
      ensures connection.Watched() ==
              if live && !old(Rejected(connection.login, connection.websocketId))
              then W.Opened(W.NEW_WATCH) else W.ClosedBy(W.NEW_WATCH, false)
    {
      Meet(connection, r);
      Set(connection, live, r);
    }

    /** `createConnection` and `set`: the connection for a websocket id that `setQueueStatus` gave out. */
    method Accept(login: Login, websocketId: nat, options: W.Options, live: bool, ghost r: R.Registry)
      returns (connection: Connection)
      requires Shows(r) && Key(login, websocketId) !in all
      modifies this, all.Values
      ensures fresh(connection) && connection.Id() == Key(login, websocketId)
      ensures all == old(all)[Key(login, websocketId) := connection]
      ensures Shows(R.Register(r, Key(login, websocketId), live))
      ensures connection.state == R.Open <==> live && !old(Rejected(login, websocketId))
      ensures connection.pingTimer <==> connection.state == R.Open
    {
      connection := new Connection(login, websocketId, options);
      Introduce(connection, live, r);
    }

    /** Stops tracking a connection, if it is the one tracked for its login, and closes it. */
    method Delete(login: Login, websocketId: nat, ghost r: R.Registry)
      requires Shows(r) && Key(login, websocketId) in r.conns
      modifies this, all.Values
      ensures all == old(all) && Shows(R.Delete(r, Key(login, websocketId)))
      ensures OthersKeep(Key(login, websocketId))
      ensures var k := Key(login, websocketId);
              all[k].Watched() ==
              if R.Tracks(r, k) then W.ClosedBy(old(all[k].Watched()), false) else old(all[k].Watched())
      decreases tracked.Keys, 0
    {
      if login !in tracked {
        return;
      }
      var connection := tracked[login];
      if connection.websocketId != websocketId {
        assert !R.Tracks(r, Key(login, websocketId));
        return;
      }
      ghost var r1 := r.(tracked := r.tracked - {login});
      tracked := tracked - {login};
      assert Shows(r1);
      DropUntracked(connection, r1);
    }

    /** The rest of `Delete`: the connection is closed and its queue status removed. */
    method DropUntracked(connection: Connection, ghost r: R.Registry)
      requires Shows(r) && Knows(connection)
      modifies this, all.Values
      ensures all == old(all)
      ensures var q := R.Close(r, connection.Id()); Shows(q.(removals := q.removals + multiset{connection.Id()}))
      ensures connection.Watched() == W.ClosedBy(old(connection.Watched()), false)
      ensures OthersKeep(connection.Id())
      decreases tracked.Keys, 2
    {
      connection.Close(false, this, r);
      Issue(connection.Id(), R.Close(r, connection.Id()));
    }

    /** Issues `removeQueueStatus`. */
    method Issue(k: Key, ghost r: R.Registry)
      requires Shows(r)
      modifies this`removals
      ensures Shows(r.(removals := r.removals + multiset{k}))
    {
      removals := removals + multiset{k};
      assert ShowsTracked(r.tracked) && ShowsConns(r.conns);
    }

    /** The connections still waiting: those tracked and open, which is all that are tracked. */
    method GetQueued(ghost r: R.Registry) returns (queued: set<Connection>)
      requires Shows(r) && R.Inv(r)
      ensures queued <= all.Values
      ensures forall k :: k in all ==> (all[k] in queued <==> R.Tracks(r, k))
      ensures forall c :: c in queued ==> c.state == R.Open
    {
      queued := set c | c in tracked.Values && c.state == R.Open;
      forall k | k in all ensures all[k] in queued <==> R.Tracks(r, k) {
        assert ShowsConn(r.conns[k], k) && R.ConnOk(r, k);
      }
    }

    ghost predicate WatchesAre(m: map<Key, W.Watch>)
      reads this`all, all.Values
    {
      m.Keys == all.Keys && forall k :: k in all ==> all[k].Watched() == m[k]
    }

    /** The loop of `Close` has got as far as the logins `done`. */
    ghost predicate Reached(r: R.Registry, done: set<Login>)
      reads this, all.Values
    {
      R.Inv(r) && Shows(R.ClosedFor(r, done))
    }

    lemma ReachedNone(r: R.Registry)
      requires Shows(r) && R.Inv(r)
      ensures Reached(r, {})
    {
      R.ClosedForNone(r);
    }

    lemma ReachedNext(r: R.Registry, done: set<Login>, l: Login)
      requires Reached(r, done) && l in tracked
      ensures l in r.tracked && l !in done && Knows(tracked[l]) && tracked[l].Id() == Key(l, r.tracked[l])
    {
    }

    lemma ReachedAll(r: R.Registry, done: set<Login>)
      requires Reached(r, done) && tracked.Keys == {}
      ensures Shows(R.Shutdown(r)) && r.tracked.Keys <= done
    {
      assert (r.tracked - done).Keys == {};
      forall l | l in r.tracked ensures l in done {
        assert l !in (r.tracked - done).Keys;
      }
      R.ClosedForAll(r, done);
    }

    /** One round of the loop of `Close`. */
    method CloseOne(connection: Connection, ghost r: R.Registry, ghost done: set<Login>, ghost m: map<Key, W.Watch>)
      requires Reached(r, done) && Knows(connection) && WatchesAre(m)
      requires connection.login in r.tracked && connection.login !in done
      requires connection.websocketId == r.tracked[connection.login]
      modifies this, all.Values
      ensures all == old(all) && Reached(r, done + {connection.login})
      ensures WatchesAre(m[connection.Id() := W.ClosedBy(m[connection.Id()], false)])
    {
      ghost var id, stopped := connection.Id(), W.ClosedBy(connection.Watched(), false);
      assert m[id] == connection.Watched();
      CloseAnother(connection, r, done);
      WatchesPut(m, id, stopped);
    }

    lemma WatchesPut(m: map<Key, W.Watch>, id: Key, w: W.Watch)
      requires m.Keys == all.Keys && id in all && all[id].Watched() == w
      requires forall k :: k in all && k != id ==> all[k].Watched() == m[k]
      ensures WatchesAre(m[id := w])
    {
    }

    method CloseAnother(connection: Connection, ghost r: R.Registry, ghost done: set<Login>)
      requires Reached(r, done) && Knows(connection)
      requires connection.login in r.tracked && connection.login !in done
      requires connection.websocketId == r.tracked[connection.login]
      modifies this, all.Values
      ensures all == old(all) && Reached(r, done + {connection.login})
      ensures connection.Watched() == W.ClosedBy(old(connection.Watched()), false)
      ensures OthersKeep(connection.Id())
    {
      R.ClosedForNext(r, done, connection.login);
      connection.Close(false, this, R.ClosedFor(r, done));
    }

    /** Clears the Map, from which its connections have removed themselves. */
    method Clear(ghost r: R.Registry)
      requires Shows(r) && tracked.Keys == {}
      modifies this`tracked
      ensures Shows(r)
    {
      assert tracked == map[];
      tracked := map[];
    }

    /** The loop of `Close`, in any order. */
    method CloseTracked(ghost r: R.Registry, ghost m: map<Key, W.Watch>) returns (ghost done: set<Login>)
      requires Reached(r, {}) && WatchesAre(m)
      modifies this, all.Values
      ensures all == old(all) && Reached(r, done) && tracked.Keys == {}
      ensures WatchesAre(StoppedFor(r, m, done))
    {
      done := {};
      assert StoppedFor(r, m, done) == m;
      while tracked.Keys != {}
        invariant all == old(all) && Reached(r, done) && WatchesAre(StoppedFor(r, m, done))
        decreases r.tracked.Keys - done
      {
        var l :| l in tracked;
        ReachedNext(r, done, l);
        StoppedForNext(r, m, done, Key(l, r.tracked[l]));
        CloseOne(tracked[l], r, done, StoppedFor(r, m, done));
        done := done + {l};
      }
    }

    method CloseAndClear(ghost r: R.Registry, ghost m: map<Key, W.Watch>) returns (ghost done: set<Login>)
      requires Reached(r, {}) && WatchesAre(m)
      modifies this, all.Values
      ensures all == old(all) && Shows(R.Shutdown(r))
      ensures r.tracked.Keys <= done && WatchesAre(StoppedFor(r, m, done))
    {
      done := CloseTracked(r, m);
      ReachedAll(r, done);
      Clear(R.Shutdown(r));
    }

    /** Closes every tracked connection, which stops its timers, and clears the Map. */
    method Close(ghost r: R.Registry)
      requires Shows(r) && R.Inv(r)
      modifies this, all.Values
      ensures all == old(all) && Shows(R.Shutdown(r))
      ensures forall k :: k in all ==>
                all[k].Watched() ==
                if R.Tracks(r, k) then W.ClosedBy(old(all[k].Watched()), false) else old(all[k].Watched())
    {
      ghost var m := map k | k in all :: all[k].Watched();
      ReachedNone(r);
      ghost var _ := CloseAndClear(r, m);
    }
  }

  /** The watchdogs once the tracked connections of the logins `done` are closed. */
  ghost function StoppedFor(r: R.Registry, m: map<Key, W.Watch>, done: set<Login>): map<Key, W.Watch> {
    map k | k in m :: if R.Tracks(r, k) && k.login in done then W.ClosedBy(m[k], false) else m[k]
  }

  lemma StoppedForNext(r: R.Registry, m: map<Key, W.Watch>, done: set<Login>, k: Key)
    requires R.Tracks(r, k) && k.login !in done && k in m
    ensures var s := StoppedFor(r, m, done);
            s[k := W.ClosedBy(s[k], false)] == StoppedFor(r, m, done + {k.login})
  {
  }
}

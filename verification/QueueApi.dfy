/**
 * Any number of API instances working on the same user rows. One step is one
 * turn of an instance's event loop or one SQL statement; a statement that was
 * issued runs later, or is lost. Processing one connection of a poll is a step
 * of its own, so overlapping polls may interleave anywhere.
 */
module QueueApi {
  import opened Base
  import opened Tables
  import R = Registry

  /** `open` is false once the server is closed. */
  datatype Instance = Instance(reg: R.Registry, open: bool)

  /** A websocket whose `setQueueStatus` has run and whose registration has not. */
  datatype Arrival = Arrival(inst: nat, key: Key)

  /** A poll in flight: the connections still to process, and the answer once it came. */
  datatype Poll = Poll(inst: nat, queued: set<Key>, answer: Option<map<Login, Status>>)

  /**
   * `removes` and `extensions` hold the statements issued and not yet run; a removal
   * is issued at most once for a websocket, equal extensions may overlap. `touched`
   * is a log: the keys that were newest when AddMatch or SetupMatchmaking
   * changed their row.
   */
  datatype Api = Api(
    instances: seq<Instance>,
    arriving: set<Arrival>,
    removes: set<Key>,
    extensions: multiset<set<Key>>,
    polls: seq<Poll>,
    touched: set<Key>)

  datatype Act =
    | Enqueue(inst: nat, login: Login, until: Time)
    | Arrive(arrival: Arrival, live: bool)
    | DropArrival(arrival: Arrival)
    | Lose(inst: nat, key: Key)
    | ShutDown(inst: nat)
    | RemoveRun(key: Key)
    | RemoveLost(key: Key)
    | ExtendStart(inst: nat)
    | ExtendRun(keys: set<Key>, until: Time)
    | ExtendLost(keys: set<Key>)
    | PollStart(inst: nat)
    | PollAnswer(poll: nat)
    | PollLost(poll: nat)
    | PollHandle(poll: nat, key: Key, ok: bool)

  function Queued(r: R.Registry): set<Key> {
    set k | k in r.conns && R.Tracks(r, k) && r.conns[k].phase == R.Open
  }

  /** What the code and its surroundings require of a step. */
  predicate Possible(a: Api, act: Act) {
    match act
    case Enqueue(i, _, _) => i < |a.instances|
    case Arrive(w, _) => w in a.arriving
    case DropArrival(w) => w in a.arriving
    case Lose(i, k) => i < |a.instances| && k in a.instances[i].reg.conns
    case ShutDown(i) => i < |a.instances|
    case RemoveRun(k) => k in a.removes
    case RemoveLost(k) => k in a.removes
    case ExtendStart(i) => i < |a.instances| && a.instances[i].open
    case ExtendRun(keys, _) => keys in a.extensions
    case ExtendLost(keys) => keys in a.extensions
    case PollStart(i) => i < |a.instances| && a.instances[i].open
    case PollAnswer(j) => j < |a.polls| && a.polls[j].answer.None?
    case PollLost(j) => j < |a.polls|
    case PollHandle(j, k, _) => j < |a.polls| && a.polls[j].answer.Some? && k in a.polls[j].queued
  }

  /** What a step needs to be defined; `NothingExcluded` shows that it always is. */
  predicate Defined(a: Api, act: Act)
    requires Possible(a, act)
  {
    match act
    case Arrive(w, _) => w.inst < |a.instances| && w.key !in a.instances[w.inst].reg.conns
    case PollHandle(j, k, _) => a.polls[j].inst < |a.instances| && k in a.instances[a.polls[j].inst].reg.conns
    case _ => true
  }

  predicate Enabled(a: Api, act: Act) {
    Possible(a, act) && Defined(a, act)
  }

  /** Puts a new registry state in place; every removal it asked for is issued. */
  function WithReg(a: Api, i: nat, r: R.Registry): Api
    requires i < |a.instances|
  {
    a.(instances := a.instances[i := a.instances[i].(reg := r)],
       removes := a.removes + Asked(a.instances[i].reg, r))
  }

  function Asked(r: R.Registry, q: R.Registry): set<Key> {
    set k | k in q.removals && q.removals[k] > r.removals[k]
  }

  /** `onPull` for one connection, given its row in the answer. */
  function Handled(r: R.Registry, k: Key, answer: map<Login, Status>, ok: bool): R.Registry
    requires k in r.conns
  {
    if k.login !in answer then R.Close(r, k)
    else if answer[k.login].ws != k.ws then R.Close(r, k)
    else if answer[k.login].matchId.None? then r
    else R.SendMatch(r, k, R.Payload(k.login, answer[k.login].server, answer[k.login].token), ok)
  }

  function Next(a: Api, t: Tables, act: Act): Api
    requires Enabled(a, act)
  {
    match act
    case Enqueue(i, l, _) =>
      (match QueueId(t, l)
       case None => a
       case Some(id) => a.(arriving := a.arriving + {Arrival(i, Key(l, id))}))
    case Arrive(w, live) =>
      var rest := a.(arriving := a.arriving - {w});
      if !a.instances[w.inst].open then rest
      else WithReg(rest, w.inst, R.Register(rest.instances[w.inst].reg, w.key, live))
    case DropArrival(w) => a.(arriving := a.arriving - {w})
    case Lose(i, k) => WithReg(a, i, R.Close(a.instances[i].reg, k))
    case ShutDown(i) =>
      var b := WithReg(a, i, R.Shutdown(a.instances[i].reg));
      b.(instances := b.instances[i := b.instances[i].(open := false)])
    case RemoveRun(k) => a.(removes := a.removes - {k})
    case RemoveLost(k) => a.(removes := a.removes - {k})
    case ExtendStart(i) => a.(extensions := a.extensions + multiset{Queued(a.instances[i].reg)})
    case ExtendRun(keys, _) => a.(extensions := a.extensions - multiset{keys})
    case ExtendLost(keys) => a.(extensions := a.extensions - multiset{keys})
    case PollStart(i) => a.(polls := a.polls + [Poll(i, Queued(a.instances[i].reg), None)])
    case PollAnswer(j) =>
      var p := a.polls[j];
      a.(polls := a.polls[j := p.(answer := Some(Statuses(t, p.queued)))])
    case PollLost(j) => a.(polls := a.polls[..j] + a.polls[j + 1..])
    case PollHandle(j, k, ok) =>
      var p := a.polls[j];
      WithReg(a.(polls := a.polls[j := p.(queued := p.queued - {k})]), p.inst,
              Handled(a.instances[p.inst].reg, k, p.answer.value, ok))
  }

  /** What a step does to the rows. */
  function NextTables(t: Tables, act: Act): Tables {
    match act
    case Enqueue(_, l, until) => SetQueue(t, l, until)
    case RemoveRun(k) => RemoveQueue(t, k)
    case ExtendRun(keys, until) => Extend(t, keys, until)
    case _ => t
  }

  // ----- The invariant -----

  /** The websocket is on its way into a registry, or open in one. */
  ghost predicate Alive(a: Api, k: Key) {
    || (exists w :: w in a.arriving && w.key == k)
    || (exists i :: 0 <= i < |a.instances| && OpenAt(a, i, k))
  }

  predicate OpenAt(a: Api, i: nat, k: Key)
    requires i < |a.instances|
  {
    k in a.instances[i].reg.conns && a.instances[i].reg.conns[k].phase == R.Open
  }

  /** Allocated ids are real: the user exists and the id is not beyond the last one given out. */
  predicate Known(t: Tables, k: Key) {
    k.login in t.users && 1 <= k.ws <= t.users[k.login].lastWs
  }

  /** No websocket id is in two places. */
  ghost predicate Placed(a: Api) {
    && (forall i, j, k :: 0 <= i < j < |a.instances| && k in a.instances[i].reg.conns ==>
          k !in a.instances[j].reg.conns)
    && (forall w, i :: w in a.arriving && 0 <= i < |a.instances| ==> w.key !in a.instances[i].reg.conns)
    && (forall v, w :: v in a.arriving && w in a.arriving && v.key == w.key ==> v == w)
    && (forall w :: w in a.arriving ==> w.inst < |a.instances|)
  }

  ghost predicate KnownInv(a: Api, t: Tables) {
    && (forall w :: w in a.arriving ==> Known(t, w.key))
    && (forall i, k :: 0 <= i < |a.instances| && k in a.instances[i].reg.conns ==> Known(t, k))
    && (forall k :: k in a.removes ==> Known(t, k))
    && (forall k :: k in a.touched ==> k.login in t.users && k.ws <= t.users[k.login].lastWs)
  }

  ghost predicate RegsInv(a: Api) {
    forall i :: 0 <= i < |a.instances| ==> R.Inv(a.instances[i].reg)
  }

  /** A statement that takes a user off the queue is only ever issued for a websocket that is gone. */
  ghost predicate RemovesInv(a: Api) {
    forall k :: k in a.removes ==> !Alive(a, k)
  }

  /** A poll is about connections of its own instance. */
  predicate PollOk(a: Api, p: Poll) {
    p.inst < |a.instances| && p.queued <= a.instances[p.inst].reg.conns.Keys
  }

  ghost predicate PollsInv(a: Api) {
    forall j :: 0 <= j < |a.polls| ==> PollOk(a, a.polls[j])
  }

  predicate StillQueued(t: Tables, k: Key) {
    k.login in t.users && t.users[k.login].queuedUntil.Some? && t.users[k.login].matchId.None?
  }

  /**
   * The newest websocket wins: while it is alive its user stays queued, until
   * AddMatch or SetupMatchmaking touches the row.
   */
  ghost predicate NewestInv(a: Api, t: Tables) {
    forall k :: Alive(a, k) && k.login in t.users && t.users[k.login].lastWs == k.ws && k !in a.touched ==>
      StillQueued(t, k)
  }

  ghost predicate Inv(a: Api, t: Tables) {
    && RegsInv(a)
    && Placed(a)
    && KnownInv(a, t)
    && RemovesInv(a)
    && NewestInv(a, t)
    && PollsInv(a)
  }

  /** No step of the code is left out of the model. */
  lemma NothingExcluded(a: Api, t: Tables, act: Act)
    requires Inv(a, t)
    ensures Enabled(a, act) <==> Possible(a, act)
  {
    if act.PollHandle? && act.poll < |a.polls| {
      assert PollOk(a, a.polls[act.poll]);
    }
  }

  // ----- Steps of a registry -----

  /** What every registry operation has in common; `added` is the key it adds, if any. */
  ghost predicate RegStep(r: R.Registry, q: R.Registry, added: set<Key>) {
    && R.Inv(q)
    && q.conns.Keys == r.conns.Keys + added
    && (forall k :: k in q.conns && q.conns[k].phase == R.Open ==>
          k in added || (k in r.conns && r.conns[k].phase == R.Open))
    && (forall k :: k in Asked(r, q) ==> k in q.conns && q.conns[k].phase == R.Closed)
  }

  lemma AskedAreClosed(r: R.Registry, q: R.Registry)
    requires R.Inv(q)
    ensures forall k :: k in Asked(r, q) ==> k in q.conns && q.conns[k].phase == R.Closed
  {
    forall k | k in Asked(r, q) ensures k in q.conns && q.conns[k].phase == R.Closed {
      assert R.RemovalOk(q, k);
    }
  }

  lemma CloseRegStep(r: R.Registry, k: Key)
    requires R.Inv(r) && k in r.conns
    ensures RegStep(r, R.Close(r, k), {})
  {
    DroppedRegStep(r, k);
    assert R.Close(r, k) == R.Dropped(r, k) by {
      R.CloseIsDropped(r, k);
    }
  }

  lemma DroppedRegStep(r: R.Registry, k: Key)
    requires R.Inv(r) && k in r.conns
    ensures RegStep(r, R.Dropped(r, k), {})
  {
    R.DroppedInv(r, k);
    AskedAreClosed(r, R.Dropped(r, k));
  }

  lemma SendRegStep(r: R.Registry, k: Key, p: R.Payload, ok: bool)
    requires R.Inv(r) && k in r.conns
    ensures RegStep(r, R.SendMatch(r, k, p, ok), {})
  {
    R.SendMatchInv(r, k, p, ok);
    R.SendMatchIsDropped(r, k, p, ok);
    AskedAreClosed(r, R.SendMatch(r, k, p, ok));
  }

  lemma RegisteredOpens(r: R.Registry, k: Key, live: bool)
    requires k !in r.conns
    ensures var q := R.Registered(r, k, live);
            && q.conns.Keys == r.conns.Keys + {k}
            && forall j :: j in q.conns && q.conns[j].phase == R.Open && j != k ==>
                 j in r.conns && r.conns[j].phase == R.Open
  {
  }

  lemma RegisterRegStep(r: R.Registry, k: Key, live: bool)
    requires R.Inv(r) && k !in r.conns
    ensures RegStep(r, R.Register(r, k, live), {k})
  {
    var q := R.Register(r, k, live);
    R.RegisterInv(r, k, live);
    AskedAreClosed(r, q);
    assert q == R.Registered(r, k, live) by {
      R.RegisterIsRegistered(r, k, live);
    }
    RegisteredOpens(r, k, live);
  }

  lemma ShutdownRegStep(r: R.Registry)
    requires R.Inv(r)
    ensures RegStep(r, R.Shutdown(r), {})
  {
    R.ShutdownInv(r);
    AskedAreClosed(r, R.Shutdown(r));
  }

  lemma SameRegStep(r: R.Registry)
    requires R.Inv(r)
    ensures RegStep(r, r, {})
  {
    AskedAreClosed(r, r);
  }

  lemma HandledRegStep(r: R.Registry, k: Key, answer: map<Login, Status>, ok: bool)
    requires R.Inv(r) && k in r.conns
    ensures RegStep(r, Handled(r, k, answer, ok), {})
  {
    if k.login !in answer || answer[k.login].ws != k.ws {
      CloseRegStep(r, k);
    } else if answer[k.login].matchId.None? {
      SameRegStep(r);
    } else {
      SendRegStep(r, k, R.Payload(k.login, answer[k.login].server, answer[k.login].token), ok);
    }
  }

  // ----- Preservation -----

  /** Alive websockets are no more than before, once the new registry is in place. */
  lemma WithRegAlive(a: Api, i: nat, q: R.Registry, k: Key)
    requires i < |a.instances|
    requires forall j :: j in q.conns && q.conns[j].phase == R.Open ==>
               j in a.instances[i].reg.conns && a.instances[i].reg.conns[j].phase == R.Open
    requires Alive(WithReg(a, i, q), k)
    ensures Alive(a, k)
  {
    var b := WithReg(a, i, q);
    if !(exists w :: w in b.arriving && w.key == k) {
      var j :| 0 <= j < |b.instances| && OpenAt(b, j, k);
      assert OpenAt(a, j, k);
    }
  }

  /** The removals that a registry operation asks for are for websockets that it closed. */
  lemma WithRegRemoves(a: Api, t: Tables, i: nat, q: R.Registry, k: Key)
    requires Inv(a, t) && i < |a.instances| && RegStep(a.instances[i].reg, q, {})
    requires k in WithReg(a, i, q).removes
    ensures !Alive(WithReg(a, i, q), k) && Known(t, k)
  {
    var b := WithReg(a, i, q);
    if k in a.removes {
      assert Alive(b, k) ==> Alive(a, k) by {
        if Alive(b, k) {
          WithRegAlive(a, i, q, k);
        }
      }
    } else {
      assert k in Asked(a.instances[i].reg, q);
      assert k in a.instances[i].reg.conns;
      NotAliveIfClosed(b, i, k);
    }
  }

  /** A registry operation that adds no websocket keeps the invariant. */
  lemma WithRegInv(a: Api, t: Tables, i: nat, q: R.Registry)
    requires Inv(a, t) && i < |a.instances| && RegStep(a.instances[i].reg, q, {})
    ensures Inv(WithReg(a, i, q), t)
  {
    var b := WithReg(a, i, q);
    forall k | Alive(b, k) ensures Alive(a, k) {
      WithRegAlive(a, i, q, k);
    }
    assert Placed(b);
    forall k | k in b.removes ensures !Alive(b, k) && Known(t, k) {
      WithRegRemoves(a, t, i, q, k);
    }
    RegPolls(a, b, i);
  }

  /** The polls stay in order when a registry gains connections or keeps them. */
  lemma RegPolls(a: Api, b: Api, i: nat)
    requires PollsInv(a) && i < |a.instances| == |b.instances| && b.polls == a.polls
    requires forall j :: 0 <= j < |a.instances| ==> a.instances[j].reg.conns.Keys <= b.instances[j].reg.conns.Keys
    ensures PollsInv(b)
  {
    forall j | 0 <= j < |b.polls| ensures PollOk(b, b.polls[j]) {
      assert PollOk(a, a.polls[j]);
    }
  }

  /** With its one place closed, a websocket is not alive anywhere. */
  lemma NotAliveIfClosed(a: Api, i: nat, k: Key)
    requires i < |a.instances| && k in a.instances[i].reg.conns && a.instances[i].reg.conns[k].phase == R.Closed
    requires forall j :: 0 <= j < |a.instances| && j != i ==> k !in a.instances[j].reg.conns
    requires forall w :: w in a.arriving ==> w.key != k
    ensures !Alive(a, k)
  {
    forall j | 0 <= j < |a.instances| ensures !OpenAt(a, j, k) {
    }
  }

  lemma FewerAlive(a: Api, b: Api, k: Key)
    requires b.instances == a.instances && b.arriving <= a.arriving && Alive(b, k)
    ensures Alive(a, k)
  {
    if exists w :: w in b.arriving && w.key == k {
      var w :| w in b.arriving && w.key == k;
      assert w in a.arriving;
    } else {
      var j :| 0 <= j < |b.instances| && OpenAt(b, j, k);
      assert OpenAt(a, j, k);
    }
  }

  /** Forgetting an arrival, a statement or a poll keeps the invariant. */
  lemma FewerInv(a: Api, b: Api, t: Tables)
    requires Inv(a, t) && b.instances == a.instances && b.touched == a.touched
    requires b.arriving <= a.arriving && b.removes <= a.removes && PollsInv(b)
    ensures Inv(b, t)
  {
    forall k | Alive(b, k) ensures Alive(a, k) {
      FewerAlive(a, b, k);
    }
  }

  /** A change of the rows keeps the invariant if it takes no newest, alive, untouched websocket off the queue. */
  lemma RowsInv(a: Api, b: Api, t: Tables, u: Tables)
    requires Inv(a, t)
    requires b == a.(touched := b.touched) && a.touched <= b.touched
    requires forall l :: l in t.users ==> l in u.users && u.users[l].lastWs == t.users[l].lastWs
    requires forall k :: k in b.touched ==> k.login in u.users && k.ws <= u.users[k.login].lastWs
    requires forall k ::
               (Alive(a, k) && Known(t, k) && t.users[k.login].lastWs == k.ws && k !in b.touched && StillQueued(t, k))
               ==> StillQueued(u, k)
    ensures Inv(b, u)
  {
    forall k | Known(t, k) ensures Known(u, k) {
    }
    assert KnownInv(b, u);
    forall k | Alive(b, k) ensures Alive(a, k) && Known(t, k) {
      FewerAlive(a, b, k);
      AliveIsKnown(a, t, k);
    }
    assert RemovesInv(b);
  }

  lemma AliveIsKnown(a: Api, t: Tables, k: Key)
    requires KnownInv(a, t) && Alive(a, k)
    ensures Known(t, k)
  {
    if exists w :: w in a.arriving && w.key == k {
    } else {
      var j :| 0 <= j < |a.instances| && OpenAt(a, j, k);
    }
  }

  lemma EnqueueInv(a: Api, t: Tables, i: nat, l: Login, until: Time)
    requires Inv(a, t) && i < |a.instances| && QueueId(t, l).Some?
    ensures Inv(Next(a, t, Enqueue(i, l, until)), SetQueue(t, l, until))
  {
    var k := Key(l, QueueId(t, l).value);
    var b, u := Next(a, t, Enqueue(i, l, until)), SetQueue(t, l, until);
    assert !Known(t, k);
    assert b.instances == a.instances && b.arriving == a.arriving + {Arrival(i, k)};
    forall j | Alive(b, j) ensures j == k || Alive(a, j) {
      if exists w :: w in b.arriving && w.key == j {
      } else {
        var n :| 0 <= n < |b.instances| && OpenAt(b, n, j);
        assert OpenAt(a, n, j);
      }
    }
    forall j | Alive(b, j) && j.login in u.users && u.users[j.login].lastWs == j.ws && j !in b.touched
      ensures StillQueued(u, j)
    {
      if j != k {
        AliveIsKnown(a, t, j);
        assert j.login != l;
      }
    }
    assert Placed(b);
    forall j | Known(t, j) ensures Known(u, j) {
    }
    assert Known(u, k);
  }

  lemma ArrivedInv(a: Api, t: Tables, w: Arrival, q: R.Registry)
    requires Inv(a, t) && w in a.arriving && w.inst < |a.instances|
    requires RegStep(a.instances[w.inst].reg, q, {w.key})
    ensures Inv(WithReg(a.(arriving := a.arriving - {w}), w.inst, q), t)
  {
    var b := WithReg(a.(arriving := a.arriving - {w}), w.inst, q);
    ArrivePlaced(a, w, q);
    RegPolls(a, b, w.inst);
    ArriveKnown(a, t, w, q);
    forall k | Alive(b, k) ensures Alive(a, k) {
      ArriveAlive(a, w, q, k);
    }
    forall k | k in b.removes ensures !Alive(b, k) {
      if k !in a.removes {
        assert k in Asked(a.instances[w.inst].reg, q);
        NotAliveIfClosed(b, w.inst, k);
      }
    }
  }

  lemma ArriveInv(a: Api, t: Tables, w: Arrival, live: bool)
    requires Inv(a, t) && Enabled(a, Arrive(w, live)) && a.instances[w.inst].open
    ensures Inv(Next(a, t, Arrive(w, live)), t)
  {
    var q := R.Register(a.instances[w.inst].reg, w.key, live);
    RegisterRegStep(a.instances[w.inst].reg, w.key, live);
    ArrivedInv(a, t, w, q);
  }

  lemma ArriveKnown(a: Api, t: Tables, w: Arrival, q: R.Registry)
    requires KnownInv(a, t) && w in a.arriving && w.inst < |a.instances|
    requires RegStep(a.instances[w.inst].reg, q, {w.key})
    ensures KnownInv(WithReg(a.(arriving := a.arriving - {w}), w.inst, q), t)
  {
    assert Known(t, w.key);
  }

  lemma ArrivePlaced(a: Api, w: Arrival, q: R.Registry)
    requires Placed(a) && w in a.arriving && w.inst < |a.instances|
    requires q.conns.Keys == a.instances[w.inst].reg.conns.Keys + {w.key}
    ensures Placed(WithReg(a.(arriving := a.arriving - {w}), w.inst, q))
  {
  }

  lemma ArriveAlive(a: Api, w: Arrival, q: R.Registry, k: Key)
    requires w in a.arriving && w.inst < |a.instances|
    requires RegStep(a.instances[w.inst].reg, q, {w.key})
    requires Alive(WithReg(a.(arriving := a.arriving - {w}), w.inst, q), k)
    ensures Alive(a, k)
  {
    var b := WithReg(a.(arriving := a.arriving - {w}), w.inst, q);
    if k == w.key {
    } else if exists v :: v in b.arriving && v.key == k {
      var v :| v in b.arriving && v.key == k;
      assert v in a.arriving;
    } else {
      var j :| 0 <= j < |b.instances| && OpenAt(b, j, k);
      assert OpenAt(a, j, k);
    }
  }

  lemma RemoveRunInv(a: Api, t: Tables, k: Key)
    requires Inv(a, t) && k in a.removes
    ensures Inv(a.(removes := a.removes - {k}), RemoveQueue(t, k))
  {
    RowsInv(a, a, t, RemoveQueue(t, k));
    FewerInv(a, a.(removes := a.removes - {k}), RemoveQueue(t, k));
  }

  lemma ExtendRunInv(a: Api, t: Tables, keys: set<Key>, until: Time)
    requires Inv(a, t)
    ensures Inv(a.(extensions := a.extensions - multiset{keys}), Extend(t, keys, until))
  {
    RowsInv(a, a, t, Extend(t, keys, until));
    FewerInv(a, a.(extensions := a.extensions - multiset{keys}), Extend(t, keys, until));
  }

  lemma ShutDownInv(a: Api, t: Tables, i: nat)
    requires Inv(a, t) && Enabled(a, ShutDown(i))
    ensures Inv(Next(a, t, ShutDown(i)), t)
  {
    ShutdownRegStep(a.instances[i].reg);
    var b := WithReg(a, i, R.Shutdown(a.instances[i].reg));
    WithRegInv(a, t, i, R.Shutdown(a.instances[i].reg));
    var d := b.(instances := b.instances[i := b.instances[i].(open := false)]);
    assert forall j :: 0 <= j < |b.instances| ==> d.instances[j].reg == b.instances[j].reg;
    SameRegsInv(b, d, t);
  }

  lemma SameRegsInv(a: Api, b: Api, t: Tables)
    requires Inv(a, t) && |b.instances| == |a.instances|
    requires b == a.(instances := b.instances)
    requires forall j :: 0 <= j < |a.instances| ==> b.instances[j].reg == a.instances[j].reg
    ensures Inv(b, t)
  {
    forall k | Alive(b, k) ensures Alive(a, k) {
      if exists w :: w in b.arriving && w.key == k {
      } else {
        var j :| 0 <= j < |b.instances| && OpenAt(b, j, k);
        assert OpenAt(a, j, k);
      }
    }
  }

  lemma PollHandleInv(a: Api, t: Tables, j: nat, k: Key, ok: bool)
    requires Inv(a, t) && Enabled(a, PollHandle(j, k, ok))
    ensures Inv(Next(a, t, PollHandle(j, k, ok)), t)
  {
    var p := a.polls[j];
    var b := a.(polls := a.polls[j := p.(queued := p.queued - {k})]);
    FewerInv(a, b, t);
    HandledRegStep(a.instances[p.inst].reg, k, p.answer.value, ok);
    WithRegInv(b, t, p.inst, Handled(a.instances[p.inst].reg, k, p.answer.value, ok));
  }

  /** Steps that only forget or note something. */
  predicate IsNote(act: Act) {
    || act.DropArrival? || act.RemoveLost? || act.ExtendStart? || act.ExtendLost?
    || act.PollStart? || act.PollAnswer? || act.PollLost?
  }

  lemma NewPollOk(a: Api, t: Tables, act: Act, p: Poll)
    requires PollsInv(a) && Enabled(a, act) && (act.PollStart? || act.PollAnswer? || act.PollLost?)
    requires p in Next(a, t, act).polls && p !in a.polls
    ensures PollOk(a, p)
  {
    if act.PollAnswer? {
      assert PollOk(a, a.polls[act.poll]);
    }
  }

  lemma PollNoteInv(a: Api, t: Tables, act: Act)
    requires Inv(a, t) && Enabled(a, act) && (act.PollStart? || act.PollAnswer? || act.PollLost?)
    ensures Inv(Next(a, t, act), t)
  {
    var b := Next(a, t, act);
    assert b == a.(polls := b.polls);
    forall p | p in b.polls && p !in a.polls ensures PollOk(a, p) {
      NewPollOk(a, t, act, p);
    }
    assert PollsInv(b);
    FewerInv(a, b, t);
  }

  lemma NoteInv(a: Api, t: Tables, act: Act)
    requires Inv(a, t) && Enabled(a, act) && IsNote(act)
    ensures Inv(Next(a, t, act), NextTables(t, act))
  {
    if act.PollStart? || act.PollAnswer? || act.PollLost? {
      PollNoteInv(a, t, act);
    } else {
      var b := Next(a, t, act);
      assert b.instances == a.instances && b.polls == a.polls && b.touched == a.touched;
      FewerInv(a, b, t);
    }
  }

  lemma LoseInv(a: Api, t: Tables, i: nat, k: Key)
    requires Inv(a, t) && Enabled(a, Lose(i, k))
    ensures Inv(Next(a, t, Lose(i, k)), t)
  {
    CloseRegStep(a.instances[i].reg, k);
    WithRegInv(a, t, i, R.Close(a.instances[i].reg, k));
  }

  /** Every step of every API instance keeps the invariant. */
  lemma StepInv(a: Api, t: Tables, act: Act)
    requires Inv(a, t) && Enabled(a, act)
    ensures Inv(Next(a, t, act), NextTables(t, act))
  {
    if IsNote(act) {
      NoteInv(a, t, act);
    } else {
      match act
      case Enqueue(i, l, until) =>
        if QueueId(t, l).Some? {
          EnqueueInv(a, t, i, l, until);
        }
      case Arrive(w, live) =>
        if a.instances[w.inst].open {
          ArriveInv(a, t, w, live);
        } else {
          FewerInv(a, Next(a, t, act), t);
        }
      case Lose(i, k) => LoseInv(a, t, i, k);
      case ShutDown(i) => ShutDownInv(a, t, i);
      case RemoveRun(k) => RemoveRunInv(a, t, k);
      case ExtendRun(keys, until) => ExtendRunInv(a, t, keys, until);
      case PollHandle(j, k, ok) => PollHandleInv(a, t, j, k, ok);
    }
  }
}

/** What single steps of the API do to the connections, read off the states alone. */
module QueueTheorems {
  import opened Base
  import opened Tables
  import R = Registry
  import RT = RegistryTheorems
  import S = Snapshots
  import opened QueueApi

  /** An open connection of an instance. */
  function ConnAt(a: Api, i: nat, k: Key): R.Conn
    requires i < |a.instances| && k in a.instances[i].reg.conns
  {
    a.instances[i].reg.conns[k]
  }

  /** The websocket is its user's newest. */
  predicate IsNewest(t: Tables, k: Key) {
    k.login in t.users && t.users[k.login].lastWs == k.ws
  }

  /** The step is about instance `i`. */
  predicate IsAt(a: Api, act: Act, i: nat) {
    match act
    case Arrive(w, _) => w.inst == i
    case Lose(j, _) => j == i
    case ShutDown(j) => j == i
    case PollHandle(n, _, _) => n < |a.polls| && a.polls[n].inst == i
    case _ => false
  }

  // ----- Registries -----

  /** A connection that is open and closes in this registry step has its removal asked for. */
  predicate ClosesWithRemoval(r: R.Registry, q: R.Registry, k: Key) {
    k in r.conns && r.conns[k].phase == R.Open ==>
      k in q.conns && (q.conns[k].phase == R.Open || k in Asked(r, q))
  }

  lemma EndsWithRemoval(r: R.Registry, e: RT.Event, k: Key)
    requires R.Inv(r) && RT.Possible(r, e)
    requires RT.Ends(e, k) || k !in r.conns || r.conns[k].phase != R.Open
    ensures ClosesWithRemoval(r, RT.After(r, e), k)
  {
    if k in r.conns && r.conns[k].phase == R.Open {
      RT.EndRemoves(r, e, k);
      assert k in r.removals ==> R.RemovalOk(r, k);
    }
  }

  lemma CloseWithRemoval(r: R.Registry, j: Key, k: Key)
    requires R.Inv(r) && j in r.conns
    ensures ClosesWithRemoval(r, R.Close(r, j), k)
  {
    if j == k {
      EndsWithRemoval(r, RT.Lose(j), k);
    } else {
      R.CloseIsDropped(r, j);
    }
  }

  lemma HandleWithRemoval(r: R.Registry, j: Key, answer: map<Login, Status>, ok: bool, k: Key)
    requires R.Inv(r) && j in r.conns
    ensures ClosesWithRemoval(r, Handled(r, j, answer, ok), k)
  {
    if j != k {
      S.HandledSends(r, j, answer, ok);
    } else if !S.IsCurrent(k, answer) {
      CloseWithRemoval(r, j, k);
    } else if answer[k.login].matchId.Some? {
      EndsWithRemoval(r, RT.Deliver(k, R.Payload(k.login, answer[k.login].server, answer[k.login].token), ok), k);
    }
  }

  lemma ShutdownWithRemoval(r: R.Registry, k: Key)
    requires R.Inv(r)
    ensures ClosesWithRemoval(r, R.Shutdown(r), k)
  {
    EndsWithRemoval(r, RT.Stop, k);
  }

  /** A newcomer that is no older than the newest websocket closes only what it replaces. */
  lemma ArriveWithRemoval(r: R.Registry, newcomer: Key, live: bool, k: Key)
    requires R.Inv(r) && newcomer !in r.conns && !(newcomer.login == k.login && newcomer.ws > k.ws)
    ensures ClosesWithRemoval(r, R.Register(r, newcomer, live), k)
  {
    if k in r.conns && r.conns[k].phase == R.Open {
      RT.RegisteredReplaces(r, newcomer, live, k);
      R.RegisterIsRegistered(r, newcomer, live);
    }
  }

  /** The newest websocket of a login either opens when it arrives, or its removal is asked for. */
  lemma NewestArrives(r: R.Registry, k: Key, live: bool)
    requires R.Inv(r) && k !in r.conns
    requires forall j :: j in r.conns && j.login == k.login ==> j.ws <= k.ws
    ensures var q := R.Register(r, k, live);
            && k in q.conns && q.conns[k] == R.Conn(if live then R.Open else R.Closed, true, [])
            && (k in Asked(r, q) <==> !live)
  {
    assert k.login in r.tracked ==> Key(k.login, r.tracked[k.login]) in r.conns;
    assert k in r.removals ==> R.RemovalOk(r, k);
    R.RegisterIsRegistered(r, k, live);
  }

  // ----- Steps -----

  /** A step changes at most the registry of the one instance it is about. */
  lemma OtherInstances(a: Api, t: Tables, act: Act, i: nat)
    requires Enabled(a, act) && i < |a.instances| && !IsAt(a, act, i)
    ensures |Next(a, t, act).instances| == |a.instances| && Next(a, t, act).instances[i] == a.instances[i]
  {
  }

  /** The registry of the instance that a step is about. */
  function RegAfter(a: Api, act: Act, i: nat): R.Registry
    requires Enabled(a, act) && i < |a.instances| && IsAt(a, act, i)
  {
    var r := a.instances[i].reg;
    match act
    case Arrive(w, live) => if a.instances[i].open then R.Register(r, w.key, live) else r
    case Lose(_, k) => R.Close(r, k)
    case ShutDown(_) => R.Shutdown(r)
    case PollHandle(n, k, ok) => Handled(r, k, a.polls[n].answer.value, ok)
    case _ => r
  }

  lemma RegIsAfter(a: Api, t: Tables, act: Act, i: nat)
    requires Enabled(a, act) && i < |a.instances| && IsAt(a, act, i)
    ensures var b := Next(a, t, act);
            && |b.instances| == |a.instances| && b.instances[i].reg == RegAfter(a, act, i)
            && Asked(a.instances[i].reg, b.instances[i].reg) <= b.removes
  {
    AskedNothing(a.instances[i].reg);
  }

  lemma AskedNothing(r: R.Registry)
    ensures Asked(r, r) == {}
  {
  }

  lemma AfterWithRemoval(a: Api, t: Tables, act: Act, i: nat, k: Key)
    requires Inv(a, t) && Enabled(a, act) && i < |a.instances| && IsAt(a, act, i) && IsNewest(t, k)
    ensures ClosesWithRemoval(a.instances[i].reg, RegAfter(a, act, i), k)
  {
    var r := a.instances[i].reg;
    if act.Arrive? {
      assert Known(t, act.arrival.key);
      if a.instances[i].open {
        ArriveWithRemoval(r, act.arrival.key, act.live, k);
      }
    } else if act.Lose? {
      CloseWithRemoval(r, act.key, k);
    } else if act.ShutDown? {
      ShutdownWithRemoval(r, k);
    } else {
      HandleWithRemoval(r, act.key, a.polls[act.poll].answer.value, act.ok, k);
    }
  }

  /**
   * However the connection of a user's newest websocket comes to an end, a
   * statement that takes the user off the queue is issued for it.
   */
  lemma NewestCloseIsFollowedUp(a: Api, t: Tables, act: Act, i: nat, k: Key)
    requires Inv(a, t) && Enabled(a, act) && i < |a.instances| && OpenAt(a, i, k) && IsNewest(t, k)
    ensures var b := Next(a, t, act); |b.instances| == |a.instances| && (OpenAt(b, i, k) || k in b.removes)
  {
    if IsAt(a, act, i) {
      RegIsAfter(a, t, act, i);
      AfterWithRemoval(a, t, act, i, k);
    } else {
      OtherInstances(a, t, act, i);
    }
  }

  /** A connection that is lost is closed and nothing is sent on it; no other connection changes. */
  lemma LostIsClosed(a: Api, t: Tables, i: nat, k: Key)
    requires Enabled(a, Lose(i, k))
    ensures var b := Next(a, t, Lose(i, k));
            && |b.instances| == |a.instances| && b.instances[i].reg.conns.Keys == a.instances[i].reg.conns.Keys
            && ConnAt(b, i, k) == ConnAt(a, i, k).(phase := R.Closed)
            && (forall j :: j in a.instances[i].reg.conns && j != k ==> ConnAt(b, i, j) == ConnAt(a, i, j))
  {
    R.CloseIsDropped(a.instances[i].reg, k);
  }

  /** A server that is closed has no open connection left, and is closed. */
  lemma ShutDownClosesAll(a: Api, t: Tables, i: nat)
    requires Inv(a, t) && Enabled(a, ShutDown(i))
    ensures var b := Next(a, t, ShutDown(i));
            && |b.instances| == |a.instances| && !b.instances[i].open
            && forall k :: !OpenAt(b, i, k)
  {
    var b := Next(a, t, ShutDown(i));
    forall k ensures !OpenAt(b, i, k) {
      assert k in a.instances[i].reg.conns ==> R.ConnOk(a.instances[i].reg, k);
    }
  }

  /** Nothing is open on a server that is closed, and no step changes that. */
  ghost predicate IsDown(a: Api, i: nat) {
    i < |a.instances| && !a.instances[i].open && forall k :: !OpenAt(a, i, k)
  }

  lemma StaysDown(a: Api, t: Tables, act: Act, i: nat)
    requires Inv(a, t) && Enabled(a, act) && IsDown(a, i)
    ensures IsDown(Next(a, t, act), i)
  {
    var b := Next(a, t, act);
    if IsAt(a, act, i) {
      RegIsAfter(a, t, act, i);
      var r := a.instances[i].reg;
      if act.Lose? {
        CloseRegStep(r, act.key);
      } else if act.ShutDown? {
        ShutdownRegStep(r);
      } else if act.PollHandle? {
        HandledRegStep(r, act.key, a.polls[act.poll].answer.value, act.ok);
      } else {
        SameRegStep(r);
      }
      forall k ensures !OpenAt(b, i, k) {
        assert !OpenAt(a, i, k);
      }
    } else {
      OtherInstances(a, t, act, i);
      forall k ensures !OpenAt(b, i, k) {
        assert !OpenAt(a, i, k);
      }
    }
  }

  /**
   * A user's newest websocket that arrives on a server that is open is open
   * from then on if its socket is; if not, the user's removal is issued.
   */
  lemma NewestIsAdmitted(a: Api, t: Tables, w: Arrival, live: bool)
    requires Inv(a, t) && Enabled(a, Arrive(w, live)) && a.instances[w.inst].open && IsNewest(t, w.key)
    ensures var b := Next(a, t, Arrive(w, live));
            && |b.instances| == |a.instances|
            && (OpenAt(b, w.inst, w.key) <==> live)
            && (!live ==> w.key in b.removes)
  {
    RegIsAfter(a, t, Arrive(w, live), w.inst);
    forall j | j in a.instances[w.inst].reg.conns && j.login == w.key.login ensures j.ws <= w.key.ws {
      assert Known(t, j);
    }
    NewestArrives(a.instances[w.inst].reg, w.key, live);
  }

  lemma OpenAreQueued(a: Api, t: Tables, i: nat, k: Key)
    requires Inv(a, t) && i < |a.instances|
    ensures k in Queued(a.instances[i].reg) <==> OpenAt(a, i, k)
  {
    assert k in a.instances[i].reg.conns ==> R.ConnOk(a.instances[i].reg, k);
  }

  /** A poll that starts, and an extension, is about the connections that are open then: all of them, and no others. */
  lemma AllOpenAreQueued(a: Api, t: Tables, i: nat) returns (keys: set<Key>)
    requires Inv(a, t) && i < |a.instances| && a.instances[i].open
    ensures forall k :: k in keys <==> OpenAt(a, i, k)
    ensures Enabled(a, PollStart(i)) && Next(a, t, PollStart(i)) == a.(polls := a.polls + [Poll(i, keys, None)])
    ensures Enabled(a, ExtendStart(i))
    ensures Next(a, t, ExtendStart(i)) == a.(extensions := a.extensions + multiset{keys})
  {
    keys := Queued(a.instances[i].reg);
    forall k ensures k in keys <==> OpenAt(a, i, k) {
      OpenAreQueued(a, t, i, k);
    }
  }
}

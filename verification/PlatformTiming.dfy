/**
 * Queue timing in runs of the platform: how long the user of a live websocket
 * can be gathered, whatever stale removals, tokens, newer websockets and
 * extensions of others happen in between.
 */
module PlatformTiming {
  import opened Base
  import opened Tables
  import Q = QueueApi
  import opened Platform
  import opened PlatformRows
  import opened PlatformInvariant

  /** A statement that sets a deadline sets it `ms` after the moment it runs. */
  predicate Punctual(p: Platform, a: Act, ms: nat) {
    a.Api? && (a.api.Enqueue? || a.api.ExtendRun?) ==> a.api.until == p.now + ms
  }

  /** Websocket `k` is alive and its user's newest, and the matchmaker has not taken the user off the queue. */
  ghost predicate Waits(p: Platform, k: Key) {
    && Q.Alive(p.api, k) && k !in p.api.touched
    && k.login in p.db.users && p.db.users[k.login].lastWs == k.ws
  }

  predicate ExtendsKey(a: Act, k: Key) {
    a.Api? && a.api.ExtendRun? && k in a.api.keys
  }

  /** When the deadline of `k` was last set: at `start`, or by the last extension between states `i` and `j`. */
  function LastSet(run: seq<Platform>, acts: seq<Act>, k: Key, i: nat, j: nat, start: Time): Time
    requires i <= j <= |acts| && |run| == |acts| + 1
    decreases j - i
  {
    if i == j then start
    else if ExtendsKey(acts[j - 1], k) then run[j - 1].now
    else LastSet(run, acts, k, i, j - 1, start)
  }

  ghost predicate IsSpan(
    c: Config, apis: nat, run: seq<Platform>, acts: seq<Act>, k: Key, i: nat, j: nat, ms: nat, start: Time)
  {
    && IsRun(c, apis, run, acts) && i <= j <= |acts|
    && (forall n :: i <= n < j ==> Punctual(run[n], acts[n], ms))
    && (forall n :: i <= n <= j ==> Waits(run[n], k))
    && run[i].db.users[k.login].queuedUntil == Some(start + ms)
  }

  // ----- One step -----

  lemma ApiDeadline(p: Platform, act: Q.Act, k: Key)
    requires Q.Inv(p.api, p.db) && Q.Enabled(p.api, act) && Waits(p, k) && Q.StillQueued(p.db, k)
    requires var u := Q.NextTables(p.db, act); k.login in u.users && u.users[k.login].lastWs == k.ws
    ensures Q.NextTables(p.db, act).users[k.login].queuedUntil ==
            if ExtendsKey(Api(act), k) then Some(act.until) else p.db.users[k.login].queuedUntil
  {
    if act.RemoveRun? {
      assert act.key != k;
    }
  }

  lemma OtherDeadline(c: Config, p: Platform, a: Act, k: Key)
    requires Q.Inv(p.api, p.db) && Enabled(c, p, a) && IsOther(a) && Waits(p, k) && Q.StillQueued(p.db, k)
    requires Waits(Next(c, p, a), k)
    ensures Next(c, p, a).db.users[k.login].queuedUntil ==
            if ExtendsKey(a, k) then Some(a.api.until) else p.db.users[k.login].queuedUntil
  {
    OtherRowsFrame(c, p, a);
    if a.Api? {
      ApiDeadline(p, a.api, k);
    }
  }

  lemma NewestIsTouched(t: Tables, logins: set<Login>, k: Key)
    requires k.login in t.users && t.users[k.login].lastWs == k.ws
    ensures k.login in logins ==> k in NewestKeys(t, logins)
  {
  }

  lemma MatchmakerDeadline(c: Config, p: Platform, a: Act, k: Key)
    requires Enabled(c, p, a) && !IsOther(a) && Waits(p, k) && Waits(Next(c, p, a), k)
    ensures Next(c, p, a).db.users[k.login].queuedUntil == p.db.users[k.login].queuedUntil
  {
    NewestIsTouched(p.db, p.db.users.Keys, k);
    if a == AddMatch {
      NewestIsTouched(p.db, p.mm.roster.Keys, k);
    }
  }

  /** Only an extension of `k` itself moves its deadline. */
  lemma DeadlineStep(c: Config, p: Platform, a: Act, k: Key)
    requires Inv(c, p) && Enabled(c, p, a) && Waits(p, k) && Waits(Next(c, p, a), k)
    ensures Next(c, p, a).db.users[k.login].queuedUntil ==
            if ExtendsKey(a, k) then Some(a.api.until) else p.db.users[k.login].queuedUntil
  {
    if IsOther(a) {
      assert Q.StillQueued(p.db, k);
      OtherDeadline(c, p, a, k);
    } else {
      MatchmakerDeadline(c, p, a, k);
    }
  }

  lemma TimeStep(c: Config, p: Platform, a: Act)
    requires Enabled(c, p, a)
    ensures p.now <= Next(c, p, a).now
  {
  }

  // ----- Runs -----

  /** One step of a run: only an extension of `k` moves its deadline, to `ms` after the present. */
  predicate DeadlineMoves(p: Platform, a: Act, q: Platform, k: Key, ms: nat) {
    && k.login in p.db.users && k.login in q.db.users
    && q.db.users[k.login].queuedUntil ==
       if ExtendsKey(a, k) then Some(p.now + ms) else p.db.users[k.login].queuedUntil
  }

  lemma StepMoves(c: Config, p: Platform, a: Act, k: Key, ms: nat)
    requires Inv(c, p) && Enabled(c, p, a) && Waits(p, k) && Waits(Next(c, p, a), k) && Punctual(p, a, ms)
    ensures DeadlineMoves(p, a, Next(c, p, a), k, ms)
  {
    DeadlineStep(c, p, a, k);
  }

  lemma RunMoves(c: Config, apis: nat, run: seq<Platform>, acts: seq<Act>, n: nat, k: Key, ms: nat)
    requires IsRun(c, apis, run, acts) && n < |acts|
    requires Waits(run[n], k) && Waits(run[n + 1], k) && Punctual(run[n], acts[n], ms)
    ensures DeadlineMoves(run[n], acts[n], run[n + 1], k, ms)
  {
    RunInv(c, apis, run, acts, n);
    StepMoves(c, run[n], acts[n], k, ms);
  }

  lemma {:induction false} MovesAddUp(
    run: seq<Platform>, acts: seq<Act>, k: Key, i: nat, j: nat, ms: nat, start: Time)
    requires i <= j <= |acts| && |run| == |acts| + 1
    requires forall n :: i <= n < j ==> DeadlineMoves(run[n], acts[n], run[n + 1], k, ms)
    requires k.login in run[i].db.users && run[i].db.users[k.login].queuedUntil == Some(start + ms)
    ensures k.login in run[j].db.users
    ensures run[j].db.users[k.login].queuedUntil == Some(LastSet(run, acts, k, i, j, start) + ms)
    decreases j - i
  {
    if i < j {
      MovesAddUp(run, acts, k, i, j - 1, ms, start);
      assert DeadlineMoves(run[j - 1], acts[j - 1], run[j - 1 + 1], k, ms);
    }
  }

  lemma Deadline(
    c: Config, apis: nat, run: seq<Platform>, acts: seq<Act>, k: Key, i: nat, j: nat, ms: nat, start: Time)
    requires IsSpan(c, apis, run, acts, k, i, j, ms, start)
    ensures k.login in run[j].db.users
    ensures run[j].db.users[k.login].queuedUntil == Some(LastSet(run, acts, k, i, j, start) + ms)
  {
    forall n | i <= n < j ensures DeadlineMoves(run[n], acts[n], run[n + 1], k, ms) {
      RunMoves(c, apis, run, acts, n, k, ms);
    }
    MovesAddUp(run, acts, k, i, j, ms, start);
  }

  /**
   * While a user's newest websocket lives and the matchmaker leaves the row
   * alone, the user can be gathered exactly until `ms` after the queueing or
   * the last extension of this websocket.
   */
  lemma GatherableExactlyUntil(
    c: Config, apis: nat, run: seq<Platform>, acts: seq<Act>, k: Key, i: nat, j: nat, ms: nat, start: Time)
    requires IsSpan(c, apis, run, acts, k, i, j, ms, start)
    ensures Gatherable(run[j].db.users[k.login], run[j].now) <==>
            run[j].now < LastSet(run, acts, k, i, j, start) + ms
  {
    Deadline(c, apis, run, acts, k, i, j, ms, start);
    assert Q.StillQueued(run[j].db, k) by {
      RunInv(c, apis, run, acts, j);
    }
  }

  /** Each extension of `k` comes less than `ms` after the deadline was last set. */
  predicate Spaced(run: seq<Platform>, acts: seq<Act>, k: Key, i: nat, j: nat, ms: nat, start: Time)
    requires i <= j <= |acts| && |run| == |acts| + 1
  {
    forall n :: i <= n < j && ExtendsKey(acts[n], k) ==> run[n].now < LastSet(run, acts, k, i, n, start) + ms
  }

  ghost predicate TimeGrows(run: seq<Platform>) {
    forall n :: 0 <= n < |run| - 1 ==> run[n].now <= run[n + 1].now
  }

  lemma RunTimeGrows(c: Config, apis: nat, run: seq<Platform>, acts: seq<Act>)
    requires IsRun(c, apis, run, acts)
    ensures TimeGrows(run)
  {
    forall n | 0 <= n < |run| - 1 ensures run[n].now <= run[n + 1].now {
      TimeStep(c, run[n], acts[n]);
    }
  }

  lemma {:induction false} SpacedNeverLapses(
    run: seq<Platform>, acts: seq<Act>, k: Key, i: nat, n: nat, j: nat, ms: nat, start: Time)
    requires TimeGrows(run) && i <= n <= j <= |acts| && |run| == |acts| + 1
    requires Spaced(run, acts, k, i, j, ms, start)
    requires run[j].now < LastSet(run, acts, k, i, j, start) + ms
    ensures run[n].now < LastSet(run, acts, k, i, n, start) + ms
    decreases j - n
  {
    if n < j {
      assert run[j - 1].now <= run[j - 1 + 1].now;
      SpacedNeverLapses(run, acts, k, i, n, j - 1, ms, start);
    }
  }

  /**
   * Extensions less than `ms` apart keep the user gatherable at every moment
   * from the queueing until `ms` after the last of them.
   */
  lemma ExtensionsKeepWaiting(
    c: Config, apis: nat, run: seq<Platform>, acts: seq<Act>, k: Key, i: nat, n: nat, j: nat, ms: nat, start: Time)
    requires IsSpan(c, apis, run, acts, k, i, j, ms, start) && i <= n <= j
    requires Spaced(run, acts, k, i, j, ms, start)
    requires run[j].now < LastSet(run, acts, k, i, j, start) + ms
    ensures Gatherable(run[n].db.users[k.login], run[n].now)
  {
    RunTimeGrows(c, apis, run, acts);
    SpacedNeverLapses(run, acts, k, i, n, j, ms, start);
    GatherableExactlyUntil(c, apis, run, acts, k, i, n, ms, start);
  }

  /** The queueing itself starts such a span: its websocket is the newest, alive and untouched. */
  lemma EnqueueStartsWaiting(
    c: Config, apis: nat, run: seq<Platform>, acts: seq<Act>, i: nat, inst: nat, l: Login, ms: nat)
    returns (k: Key)
    requires IsRun(c, apis, run, acts) && i < |acts|
    requires acts[i] == Api(Q.Enqueue(inst, l, run[i].now + ms)) && QueueId(run[i].db, l).Some?
    ensures k == Key(l, QueueId(run[i].db, l).value) && Waits(run[i + 1], k)
    ensures IsSpan(c, apis, run, acts, k, i + 1, i + 1, ms, run[i].now)
  {
    k := Key(l, QueueId(run[i].db, l).value);
    assert Q.KnownInv(run[i].api, run[i].db) by {
      RunInv(c, apis, run, acts, i);
    }
    assert Q.Arrival(inst, k) in run[i + 1].api.arriving;
    assert k !in run[i].api.touched;
  }
}

/** Delivery: what a player is told about a match, in every run of the platform. */
module PlatformDelivery {
  import opened Base
  import opened Tables
  import R = Registry
  import Q = QueueApi
  import S = Snapshots
  import opened Platform
  import opened PlatformInvariant

  /** The rows of a run up to state `i`. */
  function Past(run: seq<Platform>, i: nat): seq<Tables>
    requires i < |run|
  {
    seq(i + 1, j requires 0 <= j <= i => run[j].db)
  }

  lemma PastGrows(run: seq<Platform>, i: nat)
    requires i + 1 < |run|
    ensures Past(run, i + 1) == Past(run, i) + [run[i + 1].db]
  {
  }

  lemma OtherApi(c: Config, p: Platform, a: Act)
    requires Enabled(c, p, a) && !a.Api?
    ensures Next(c, p, a).api.instances == p.api.instances && Next(c, p, a).api.polls == p.api.polls
  {
  }

  lemma StepReads(c: Config, p: Platform, a: Act, past: seq<Tables>)
    requires Q.Inv(p.api, p.db) && Enabled(c, p, a)
    requires S.Inv(past, p.api) && past != [] && past[|past| - 1] == p.db
    ensures S.Inv(past + [Next(c, p, a).db], Next(c, p, a).api)
  {
    var q := Next(c, p, a);
    if a.Api? {
      S.StepInv(past, p.api, p.db, a.api);
    } else {
      OtherApi(c, p, a);
    }
    S.MorePast(past, q.db, q.api);
  }

  lemma RunReads(c: Config, apis: nat, run: seq<Platform>, acts: seq<Act>, i: nat)
    requires IsRun(c, apis, run, acts) && i < |acts| && S.Inv(Past(run, i), run[i].api)
    ensures S.Inv(Past(run, i + 1), run[i + 1].api)
  {
    assert Q.Inv(run[i].api, run[i].db) by {
      RunInv(c, apis, run, acts, i);
    }
    PastGrows(run, i);
    StepReads(c, run[i], acts[i], Past(run, i));
  }

  /** Over every run: all answers and payloads were read from the rows of some earlier state. */
  lemma {:induction false} ReadsAreOfThePast(c: Config, apis: nat, run: seq<Platform>, acts: seq<Act>, i: nat)
    requires IsRun(c, apis, run, acts) && i < |run|
    ensures S.Inv(Past(run, i), run[i].api)
  {
    if i > 0 {
      ReadsAreOfThePast(c, apis, run, acts, i - 1);
      RunReads(c, apis, run, acts, i - 1);
    }
  }

  /** An answered poll holds one snapshot: the rows of one earlier state, for all the users it found. */
  lemma PollsAreSnapshots(c: Config, apis: nat, run: seq<Platform>, acts: seq<Act>, i: nat, n: nat)
    requires IsRun(c, apis, run, acts) && i < |run|
    requires n < |run[i].api.polls| && run[i].api.polls[n].answer.Some?
    ensures exists j :: 0 <= j <= i && S.Answers(run[j].db, run[i].api.polls[n].answer.value)
  {
    ReadsAreOfThePast(c, apis, run, acts, i);
    var answer := run[i].api.polls[n].answer.value;
    var j :| 0 <= j < |Past(run, i)| && S.Answers(Past(run, i)[j], answer);
    assert S.Answers(run[j].db, answer);
  }

  /**
   * Every payload ever sent was read from the rows of one earlier state, in
   * which the connection's websocket id was its user's newest and the user was
   * in the match that the payload names. No connection is sent more than one.
   */
  lemma DeliveriesAreSnapshots(
    c: Config, apis: nat, run: seq<Platform>, acts: seq<Act>, i: nat, inst: nat, k: Key, n: nat)
    returns (j: nat)
    requires IsRun(c, apis, run, acts) && i < |run| && inst < |run[i].api.instances|
    requires k in run[i].api.instances[inst].reg.conns
    requires n < |run[i].api.instances[inst].reg.conns[k].sent|
    ensures n == 0 && j <= i && k.login in run[j].db.users
    ensures run[j].db.users[k.login].lastWs == k.ws && run[j].db.users[k.login].matchId.Some?
    ensures var s := StatusOf(run[j].db, k.login);
            run[i].api.instances[inst].reg.conns[k].sent[n] == R.Payload(k.login, s.server, s.token)
  {
    var r := run[i].api.instances[inst].reg;
    assert R.ConnOk(r, k) by {
      RunInv(c, apis, run, acts, i);
    }
    ReadsAreOfThePast(c, apis, run, acts, i);
    assert S.SaidBy(Past(run, i), k, r.conns[k].sent[n]);
    j :| 0 <= j < |Past(run, i)| && S.Says(Past(run, i)[j], k, r.conns[k].sent[n]);
  }

  lemma {:induction false} GrowthAddsUp(run: seq<Platform>, j: nat, i: nat)
    requires j <= i < |run|
    requires forall n :: j <= n < i ==> Grown(run[n].configs, run[n].servers, run[n + 1].configs, run[n + 1].servers)
    ensures Grown(run[j].configs, run[j].servers, run[i].configs, run[i].servers)
    decreases i - j
  {
    if j < i {
      GrowthAddsUp(run, j, i - 1);
      assert Grown(run[i - 1].configs, run[i - 1].servers, run[i - 1 + 1].configs, run[i - 1 + 1].servers);
    }
  }

  lemma LogsGrowThroughout(c: Config, apis: nat, run: seq<Platform>, acts: seq<Act>, j: nat, i: nat)
    requires IsRun(c, apis, run, acts) && j <= i < |run|
    ensures Grown(run[j].configs, run[j].servers, run[i].configs, run[i].servers)
  {
    forall n | j <= n < i ensures Grown(run[n].configs, run[n].servers, run[n + 1].configs, run[n + 1].servers) {
      assert IdsInv(run[n]) by {
        RunInv(c, apis, run, acts, n);
      }
      LogsGrow(c, run[n], acts[n]);
    }
    GrowthAddsUp(run, j, i);
  }

  lemma StatusIsTrue(c: Config, p: Platform, l: Login)
    requires RowsInv(c, p) && l in p.db.users && p.db.users[l].matchId.Some?
    ensures var id := p.db.users[l].matchId.value;
            && id in p.configs && l in p.configs[id] && id in p.servers
            && StatusOf(p.db, l).token == Some(p.configs[id][l])
            && StatusOf(p.db, l).server == Some(p.servers[id])
  {
  }

  /**
   * End to end: a payload sends its player to the worker of the match the
   * player was in when the rows were read, with the token that this worker was
   * given for the player.
   */
  lemma DeliveriesAreTrue(
    c: Config, apis: nat, run: seq<Platform>, acts: seq<Act>, i: nat, inst: nat, k: Key, n: nat)
    returns (j: nat, id: int)
    requires IsRun(c, apis, run, acts) && i < |run| && inst < |run[i].api.instances|
    requires k in run[i].api.instances[inst].reg.conns
    requires n < |run[i].api.instances[inst].reg.conns[k].sent|
    ensures j <= i && k.login in run[j].db.users
    ensures run[j].db.users[k.login].lastWs == k.ws && run[j].db.users[k.login].matchId == Some(id)
    ensures id in run[i].servers && id in run[i].configs && k.login in run[i].configs[id]
    ensures run[i].api.instances[inst].reg.conns[k].sent[n] ==
            R.Payload(k.login, Some(run[i].servers[id]), Some(run[i].configs[id][k.login]))
  {
    j := DeliveriesAreSnapshots(c, apis, run, acts, i, inst, k, n);
    id := run[j].db.users[k.login].matchId.value;
    assert RowsInv(c, run[j]) by {
      RunInv(c, apis, run, acts, j);
    }
    StatusIsTrue(c, run[j], k.login);
    LogsGrowThroughout(c, apis, run, acts, j, i);
  }

  /** What the rows `t` call for at an open connection `c` of websocket `k`. */
  function Told(t: Tables, k: Key, c: R.Conn, ok: bool): R.Conn
    requires k.login in t.users
    requires t.users[k.login].matchId.Some? ==> t.users[k.login].matchId.value in t.matches
  {
    var row := t.users[k.login];
    if row.lastWs != k.ws then c.(phase := R.Closed)
    else if row.matchId.None? then c
    else if !ok then c.(phase := R.Closed)
    else
      var server := t.matches[row.matchId.value].server;
      c.(phase := R.Closed, sent := c.sent + [R.Payload(k.login, Some(server), row.token)])
  }

  lemma HandledAsTold(t: Tables, r: R.Registry, k: Key, answer: map<Login, Status>, ok: bool)
    requires k in r.conns && r.conns[k].phase == R.Open && k.login in answer && S.Answers(t, answer)
    requires t.users[k.login].matchId.Some? ==> t.users[k.login].matchId.value in t.matches
    ensures k in Q.Handled(r, k, answer, ok).conns
    ensures Q.Handled(r, k, answer, ok).conns[k] == Told(t, k, r.conns[k], ok)
  {
    S.HandledSends(r, k, answer, ok);
    assert answer[k.login] == StatusOf(t, k.login);
  }

  /** A step that handles one connection of a poll puts the registry that `Handled` gives in place. */
  lemma HandleFrame(c: Config, p: Platform, n: nat, k: Key, ok: bool)
    requires Q.PollsInv(p.api) && Enabled(c, p, Api(Q.PollHandle(n, k, ok)))
    ensures p.api.polls[n].inst < |p.api.instances| && k in p.api.instances[p.api.polls[n].inst].reg.conns
    ensures var b, i := Next(c, p, Api(Q.PollHandle(n, k, ok))).api, p.api.polls[n].inst;
            && |b.instances| == |p.api.instances|
            && b.instances[i].reg == Q.Handled(p.api.instances[i].reg, k, p.api.polls[n].answer.value, ok)
            && forall j :: 0 <= j < |b.instances| && j != i ==> b.instances[j] == p.api.instances[j]
  {
    assert Q.PollOk(p.api, p.api.polls[n]);
  }

  /**
   * What a poll does to each open connection follows from the rows of one
   * earlier state: the connection is closed if it is not its user's newest; it
   * is left alone while the user is in no match; otherwise it is sent the
   * address of the match and the user's token, if the send succeeds, and closed.
   * No other connection changes.
   */
  lemma PollsTellEveryone(
    c: Config, apis: nat, run: seq<Platform>, acts: seq<Act>, i: nat, n: nat, k: Key, ok: bool, inst: nat)
    returns (m: nat)
    requires IsRun(c, apis, run, acts) && i < |acts| && acts[i] == Api(Q.PollHandle(n, k, ok))
    requires inst == run[i].api.polls[n].inst
    requires inst < |run[i].api.instances| && Q.OpenAt(run[i].api, inst, k)
    ensures m <= i && k.login in run[m].db.users
    ensures run[m].db.users[k.login].matchId.Some? ==> run[m].db.users[k.login].matchId.value in run[m].db.matches
    ensures |run[i + 1].api.instances| == |run[i].api.instances|
    ensures var r, q := run[i].api.instances[inst].reg, run[i + 1].api.instances[inst].reg;
            && q.conns.Keys == r.conns.Keys
            && q.conns[k] == Told(run[m].db, k, r.conns[k], ok)
            && (forall j :: j in r.conns && j != k ==> q.conns[j] == r.conns[j])
            && (forall j :: 0 <= j < |run[i].api.instances| && j != inst ==>
                  run[i + 1].api.instances[j] == run[i].api.instances[j])
  {
    var p := run[i].api.polls[n];
    var r := run[i].api.instances[inst].reg;
    m := AnswerIsOfOneState(c, apis, run, acts, i, n, k);
    assert UsersInv(run[m].db, run[m].configs) by {
      RunInv(c, apis, run, acts, m);
    }
    assert Q.PollsInv(run[i].api) by {
      RunInv(c, apis, run, acts, i);
    }
    HandleFrame(c, run[i], n, k, ok);
    S.HandledSends(r, k, p.answer.value, ok);
    HandledAsTold(run[m].db, r, k, p.answer.value, ok);
  }

  lemma AnswerIsOfOneState(
    c: Config, apis: nat, run: seq<Platform>, acts: seq<Act>, i: nat, n: nat, k: Key)
    returns (m: nat)
    requires IsRun(c, apis, run, acts) && i < |run| && n < |run[i].api.polls|
    requires run[i].api.polls[n].answer.Some? && k in run[i].api.polls[n].queued
    ensures m <= i && k.login in run[i].api.polls[n].answer.value
    ensures S.Answers(run[m].db, run[i].api.polls[n].answer.value)
  {
    ReadsAreOfThePast(c, apis, run, acts, i);
    assert S.Covers(run[i].api.polls[n]);
    var answer := run[i].api.polls[n].answer.value;
    m :| 0 <= m < |Past(run, i)| && S.Answers(Past(run, i)[m], answer);
  }
}

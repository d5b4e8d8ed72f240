/**
 * What the API instances tell the players is what they once read: every
 * answered poll and every payload ever sent comes from one earlier state of
 * the rows.
 */
module Snapshots {
  import opened Base
  import opened Tables
  import R = Registry
  import Q = QueueApi

  /** The rows say that websocket `k` is its user's newest and that the user is in a match: the one `p` names. */
  predicate Says(t: Tables, k: Key, p: R.Payload) {
    && k.login in t.users && t.users[k.login].lastWs == k.ws && t.users[k.login].matchId.Some?
    && p == R.Payload(k.login, StatusOf(t, k.login).server, StatusOf(t, k.login).token)
  }

  /** `past` holds the rows as they were in earlier states. */
  ghost predicate SaidBy(past: seq<Tables>, k: Key, p: R.Payload) {
    exists j :: 0 <= j < |past| && Says(past[j], k, p)
  }

  /** The answer to a poll: these rows, for the users it finds. */
  predicate Answers(t: Tables, answer: map<Login, Status>) {
    forall l :: l in answer ==> l in t.users && answer[l] == StatusOf(t, l)
  }

  ghost predicate AnsweredBy(past: seq<Tables>, answer: map<Login, Status>) {
    exists j :: 0 <= j < |past| && Answers(past[j], answer)
  }

  ghost predicate SentInv(past: seq<Tables>, r: R.Registry) {
    forall k, n :: k in r.conns && 0 <= n < |r.conns[k].sent| ==> SaidBy(past, k, r.conns[k].sent[n])
  }

  /** The answer covers every connection that the poll has still to process. */
  predicate Covers(p: Q.Poll) {
    p.answer.Some? ==> forall k :: k in p.queued ==> k.login in p.answer.value
  }

  ghost predicate Inv(past: seq<Tables>, a: Q.Api) {
    && (forall i :: 0 <= i < |a.instances| ==> SentInv(past, a.instances[i].reg))
    && (forall j :: 0 <= j < |a.polls| && a.polls[j].answer.Some? ==> AnsweredBy(past, a.polls[j].answer.value))
    && (forall j :: 0 <= j < |a.polls| ==> Covers(a.polls[j]))
  }

  // ----- A longer past -----

  lemma SaidByMore(past: seq<Tables>, t: Tables, k: Key, p: R.Payload)
    requires SaidBy(past, k, p)
    ensures SaidBy(past + [t], k, p)
  {
    var j :| 0 <= j < |past| && Says(past[j], k, p);
    assert Says((past + [t])[j], k, p);
  }

  lemma AnsweredByMore(past: seq<Tables>, t: Tables, answer: map<Login, Status>)
    requires AnsweredBy(past, answer)
    ensures AnsweredBy(past + [t], answer)
  {
    var j :| 0 <= j < |past| && Answers(past[j], answer);
    assert Answers((past + [t])[j], answer);
  }

  lemma MorePast(past: seq<Tables>, t: Tables, a: Q.Api)
    requires Inv(past, a)
    ensures Inv(past + [t], a)
  {
    forall i | 0 <= i < |a.instances| ensures SentInv(past + [t], a.instances[i].reg) {
      var r := a.instances[i].reg;
      forall k, n | k in r.conns && 0 <= n < |r.conns[k].sent| ensures SaidBy(past + [t], k, r.conns[k].sent[n]) {
        SaidByMore(past, t, k, r.conns[k].sent[n]);
      }
    }
    forall j | 0 <= j < |a.polls| && a.polls[j].answer.Some? ensures AnsweredBy(past + [t], a.polls[j].answer.value) {
      AnsweredByMore(past, t, a.polls[j].answer.value);
    }
  }

  // ----- Registry steps -----

  /** Nothing is sent. */
  ghost predicate SentKept(r: R.Registry, q: R.Registry) {
    forall k :: k in q.conns ==> q.conns[k].sent == if k in r.conns then r.conns[k].sent else []
  }

  lemma CloseSends(r: R.Registry, k: Key)
    requires k in r.conns
    ensures SentKept(r, R.Close(r, k))
  {
    DroppedSends(r, k);
    R.CloseIsDropped(r, k);
  }

  lemma DroppedSends(r: R.Registry, k: Key)
    requires k in r.conns
    ensures SentKept(r, R.Dropped(r, k))
  {
  }

  lemma RegisterSends(r: R.Registry, k: Key, live: bool)
    requires R.Inv(r) && k !in r.conns
    ensures SentKept(r, R.Register(r, k, live))
  {
    R.RegisterIsRegistered(r, k, live);
  }

  /** The row of `k` in the answer still names its websocket. */
  predicate IsCurrent(k: Key, answer: map<Login, Status>) {
    k.login in answer && answer[k.login].ws == k.ws
  }

  /**
   * What a poll does to one open connection: if the answer has no user for it,
   * or names another websocket, it is closed and told nothing; if the user is
   * in no match, everything stays as it is; otherwise it is closed, and is sent
   * the match if the send succeeds. A connection that is not open, and every
   * other one, is left alone.
   */
  lemma HandledSends(r: R.Registry, k: Key, answer: map<Login, Status>, ok: bool)
    requires k in r.conns
    ensures var q := Q.Handled(r, k, answer, ok);
            && q.conns.Keys == r.conns.Keys
            && (forall j :: j in r.conns && j != k ==> q.conns[j] == r.conns[j])
            && (r.conns[k].phase == R.Open && !IsCurrent(k, answer) ==>
                  q.conns[k] == r.conns[k].(phase := R.Closed))
            && (IsCurrent(k, answer) && answer[k.login].matchId.None? ==> q == r)
            && (r.conns[k].phase == R.Open && IsCurrent(k, answer) && answer[k.login].matchId.Some? ==>
                  var p := R.Payload(k.login, answer[k.login].server, answer[k.login].token);
                  q.conns[k] == r.conns[k].(phase := R.Closed, sent := r.conns[k].sent + if ok then [p] else []))
            && (r.conns[k].phase != R.Open ==> q.conns[k].sent == r.conns[k].sent)
  {
    R.CloseIsDropped(r, k);
    if k.login in answer {
      R.SendMatchIsDropped(r, k, R.Payload(k.login, answer[k.login].server, answer[k.login].token), ok);
    }
  }

  lemma HandledSays(past: seq<Tables>, r: R.Registry, k: Key, answer: map<Login, Status>, ok: bool)
    requires SentInv(past, r) && AnsweredBy(past, answer) && k in r.conns
    ensures SentInv(past, Q.Handled(r, k, answer, ok))
  {
    var q := Q.Handled(r, k, answer, ok);
    HandledSends(r, k, answer, ok);
    var i :| 0 <= i < |past| && Answers(past[i], answer);
    forall j, n | j in q.conns && 0 <= n < |q.conns[j].sent| ensures SaidBy(past, j, q.conns[j].sent[n]) {
      if n < |r.conns[j].sent| {
        assert q.conns[j].sent[n] == r.conns[j].sent[n];
      } else {
        assert j == k && Says(past[i], k, q.conns[k].sent[n]);
      }
    }
  }

  // ----- Steps of the API -----

  lemma WithRegInv(past: seq<Tables>, a: Q.Api, i: nat, q: R.Registry)
    requires i < |a.instances| && Inv(past, a) && SentInv(past, q)
    ensures Inv(past, Q.WithReg(a, i, q))
  {
  }

  lemma KeptInv(past: seq<Tables>, r: R.Registry, q: R.Registry)
    requires SentInv(past, r) && SentKept(r, q)
    ensures SentInv(past, q)
  {
  }

  lemma PollHandleInv(past: seq<Tables>, a: Q.Api, t: Tables, j: nat, k: Key, ok: bool)
    requires Inv(past, a) && Q.Enabled(a, Q.PollHandle(j, k, ok))
    ensures Inv(past, Q.Next(a, t, Q.PollHandle(j, k, ok)))
  {
    var p := a.polls[j];
    var b := a.(polls := a.polls[j := p.(queued := p.queued - {k})]);
    assert Inv(past, b);
    var r := a.instances[p.inst].reg;
    HandledSays(past, r, k, p.answer.value, ok);
    WithRegInv(past, b, p.inst, Q.Handled(r, k, p.answer.value, ok));
  }

  lemma ArriveInv(past: seq<Tables>, a: Q.Api, t: Tables, w: Q.Arrival, live: bool)
    requires Q.RegsInv(a) && Q.Enabled(a, Q.Arrive(w, live)) && Inv(past, a)
    ensures Inv(past, Q.Next(a, t, Q.Arrive(w, live)))
  {
    if a.instances[w.inst].open {
      var r := a.instances[w.inst].reg;
      RegisterSends(r, w.key, live);
      KeptInv(past, r, R.Register(r, w.key, live));
      WithRegInv(past, a.(arriving := a.arriving - {w}), w.inst, R.Register(r, w.key, live));
    }
  }

  lemma RegistryStepInv(past: seq<Tables>, a: Q.Api, t: Tables, act: Q.Act)
    requires Q.RegsInv(a) && Q.Enabled(a, act) && Inv(past, a)
    requires act.Arrive? || act.Lose? || act.ShutDown?
    ensures Inv(past, Q.Next(a, t, act))
  {
    match act
    case Arrive(w, live) => ArriveInv(past, a, t, w, live);
    case Lose(i, k) =>
      CloseSends(a.instances[i].reg, k);
      KeptInv(past, a.instances[i].reg, R.Close(a.instances[i].reg, k));
    case ShutDown(i) =>
      KeptInv(past, a.instances[i].reg, R.Shutdown(a.instances[i].reg));
  }

  /** The users of a poll's connections exist, so its answer has them all. */
  lemma AnswerCovers(a: Q.Api, t: Tables, j: nat)
    requires Q.Inv(a, t) && j < |a.polls|
    ensures forall k :: k in a.polls[j].queued ==> k.login in Statuses(t, a.polls[j].queued)
  {
    var p := a.polls[j];
    assert Q.PollOk(a, p);
    forall k | k in p.queued ensures k.login in Statuses(t, p.queued) {
      assert k in a.instances[p.inst].reg.conns;
      assert Q.Known(t, k);
    }
  }

  /** A poll that is answered reads the rows of the moment. */
  lemma PollAnswerInv(past: seq<Tables>, a: Q.Api, t: Tables, j: nat)
    requires Inv(past, a) && past != [] && past[|past| - 1] == t && Q.Enabled(a, Q.PollAnswer(j))
    requires Q.Inv(a, t)
    ensures Inv(past, Q.Next(a, t, Q.PollAnswer(j)))
  {
    AnswerCovers(a, t, j);
    assert Answers(past[|past| - 1], Statuses(t, a.polls[j].queued));
  }

  /** Every step of every instance, with the rows of the moment the last of the past. */
  lemma StepInv(past: seq<Tables>, a: Q.Api, t: Tables, act: Q.Act)
    requires Q.Inv(a, t) && Q.Enabled(a, act) && Inv(past, a) && past != [] && past[|past| - 1] == t
    ensures Inv(past, Q.Next(a, t, act))
  {
    if act.PollHandle? {
      PollHandleInv(past, a, t, act.poll, act.key, act.ok);
    } else if act.Arrive? || act.Lose? || act.ShutDown? {
      RegistryStepInv(past, a, t, act);
    } else if act.PollAnswer? {
      PollAnswerInv(past, a, t, act.poll);
    } else {
      assert Q.Next(a, t, act).instances == a.instances;
    }
  }
}

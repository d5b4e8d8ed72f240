/**
 * The result stream is delivered again from its start whenever the server
 * manager restarts. Handling it again changes nothing.
 */
module Replay {
  import opened Base
  import opened Tables

  /** What `saveLoop` does to the rows for one result. */
  function Handle(t: Tables, res: Result): Tables {
    SaveResults(RemoveStatus(t, res.matchId), res)
  }

  function HandleAll(t: Tables, s: seq<Result>): Tables {
    if s == [] then t else Handle(HandleAll(t, s[..|s| - 1]), s[|s| - 1])
  }

  /** The index of the last result for `id`, or -1. */
  function LastFor(s: seq<Result>, id: int): (k: int)
    ensures -1 <= k < |s|
    ensures k >= 0 ==> s[k].matchId == id
    ensures forall j :: k < j < |s| ==> s[j].matchId != id
  {
    if s == [] then -1
    else if s[|s| - 1].matchId == id then |s| - 1
    else LastFor(s[..|s| - 1], id)
  }

  predicate Mentions(s: seq<Result>, id: int) {
    LastFor(s, id) >= 0
  }

  /** A user row after a stream: cleared if the stream names its match, else as it was. */
  function UserAfter(row: UserRow, s: seq<Result>): UserRow {
    if row.matchId.Some? && Mentions(s, row.matchId.value)
    then row.(matchId := None, queuedUntil := None, token := None)
    else row
  }

  /** A match row after a stream: the values of its last entry, or as it was. */
  function MatchAfter(row: MatchRow, id: int, s: seq<Result>): MatchRow {
    var k := LastFor(s, id);
    if k < 0 then row
    else row.(results := Some(s[k].details), canceled := !s[k].success, active := false)
  }

  /**
   * A stream of any length, one result at a time, amounts to this: every user
   * in a match it names is cleared, every existing match it names ends with the
   * values of its last entry, and nothing else changes.
   */
  lemma {:induction false} StreamEffect(t: Tables, s: seq<Result>)
    ensures var u := HandleAll(t, s);
            && u.users.Keys == t.users.Keys && u.matches.Keys == t.matches.Keys
            && u.history == t.history && u.nextId == t.nextId
            && (forall l :: l in t.users ==> u.users[l] == UserAfter(t.users[l], s))
            && (forall id :: id in t.matches ==> u.matches[id] == MatchAfter(t.matches[id], id, s))
  {
    if s != [] {
      var before, last := s[..|s| - 1], s[|s| - 1];
      StreamEffect(t, before);
      var v := HandleAll(t, before);
      forall l | l in t.users
        ensures RemoveStatus(v, last.matchId).users[l] == UserAfter(t.users[l], s)
      {
      }
      forall id | id in t.matches
        ensures SaveResults(v, last).matches[id] == MatchAfter(t.matches[id], id, s)
      {
      }
    }
  }

  lemma LastForTwice(s: seq<Result>, id: int)
    ensures Mentions(s + s, id) == Mentions(s, id)
    ensures Mentions(s, id) ==> (s + s)[LastFor(s + s, id)] == s[LastFor(s, id)]
  {
    var k, kk := LastFor(s, id), LastFor(s + s, id);
    if kk >= 0 {
      assert (s + s)[kk] == s[if kk < |s| then kk else kk - |s|];
    }
    if k >= 0 {
      assert (s + s)[|s| + k] == s[k];
    }
  }

  lemma {:induction false} HandleAllConcat(t: Tables, a: seq<Result>, b: seq<Result>)
    ensures HandleAll(t, a + b) == HandleAll(HandleAll(t, a), b)
  {
    if b == [] {
      assert a + b == a;
    } else {
      assert (a + b)[..|a + b| - 1] == a + b[..|b| - 1];
      HandleAllConcat(t, a, b[..|b| - 1]);
    }
  }

  /** Replay idempotence: handling a whole stream twice is handling it once. */
  lemma ReplayIsIdempotent(t: Tables, s: seq<Result>)
    ensures HandleAll(HandleAll(t, s), s) == HandleAll(t, s)
  {
    HandleAllConcat(t, s, s);
    StreamEffect(t, s + s);
    StreamEffect(t, s);
    var once, twice := HandleAll(t, s), HandleAll(t, s + s);
    forall l | l in t.users ensures twice.users[l] == once.users[l] {
      if t.users[l].matchId.Some? {
        LastForTwice(s, t.users[l].matchId.value);
      }
    }
    forall id | id in t.matches ensures twice.matches[id] == once.matches[id] {
      LastForTwice(s, id);
    }
    assert twice.users == once.users && twice.matches == once.matches;
  }

  /** A match the manager has closed stays closed, whatever results arrive. */
  lemma InactiveStaysInactive(t: Tables, s: seq<Result>, id: int)
    requires id in t.matches && !t.matches[id].active
    ensures id in HandleAll(t, s).matches && !HandleAll(t, s).matches[id].active
  {
    StreamEffect(t, s);
  }

  /**
   * A restart between two deliveries does no harm either: the setup
   * transaction in between leaves every match the stream names with the same
   * final values.
   */
  lemma ReplayAcrossSetup(t: Tables, s: seq<Result>, id: int)
    requires id in t.matches && Mentions(s, id)
    ensures id in HandleAll(t, s).matches && id in HandleAll(Setup(HandleAll(t, s)), s).matches
    ensures HandleAll(Setup(HandleAll(t, s)), s).matches[id] == HandleAll(t, s).matches[id]
  {
    StreamEffect(t, s);
    StreamEffect(Setup(HandleAll(t, s)), s);
  }
}

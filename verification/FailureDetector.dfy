/**
 * What a worker's health record means, told from its history alone: which
 * checks restart it, and what `failCount` counts.
 */
module FailureDetector {
  import opened Base
  import opened Workers

  /** Everything that can happen to a worker while the manager holds its lock. */
  datatype Event =
    | Check(pong: bool, now: Time, markedAt: Time)
    | Assign(matchId: int)
    | Finish
    | RestartDone

  /** An event, with the answer the health check gave (false for other events). */
  datatype Entry = Entry(event: Event, restarted: bool)

  /** The transitions the manager makes, and only from the states it makes them in. */
  predicate Allowed(w: Rec, e: Event) {
    match e
    case Check(_, now, markedAt) => now <= markedAt
    case Assign(m) => w.state == Free && m >= 1
    case Finish => w.state == Occupied
    case RestartDone => w.state == Restarting
  }

  predicate Restarts(w: Rec, e: Event, limits: Limits) {
    e.Check? && !Healthy(Ponged(w, e.pong), e.now, limits)
  }

  function Apply(w: Rec, e: Event, limits: Limits): Rec {
    match e
    case Check(pong, now, markedAt) =>
      var w1 := Ponged(w, pong);
      if Healthy(w1, now, limits) then w1 else Marked(w1, markedAt, limits)
    case Assign(m) => Taken(w, m)
    case Finish => Freed(w)
    case RestartDone => Freed(w)
  }

  function After(log: seq<Entry>, limits: Limits): Rec {
    if log == [] then FRESH
    else Apply(After(log[..|log| - 1], limits), log[|log| - 1].event, limits)
  }

  /** A log some execution produces. */
  predicate Genuine(log: seq<Entry>, limits: Limits) {
    log == [] ||
    var before, last := log[..|log| - 1], log[|log| - 1];
    && Genuine(before, limits)
    && Allowed(After(before, limits), last.event)
    && last.restarted == Restarts(After(before, limits), last.event, limits)
  }

  // ----- The history, without the record -----

  predicate IsChange(e: Entry) {
    !e.event.Check? || e.restarted
  }

  predicate IsQuietMiss(e: Entry) {
    e.event.Check? && !e.restarted && !e.event.pong
  }

  /** The index of the last state change, or -1. */
  function LastChange(log: seq<Entry>): (j: int)
    ensures -1 <= j < |log|
    ensures j >= 0 ==> IsChange(log[j])
    ensures forall k :: j < k < |log| ==> !IsChange(log[k])
  {
    if log == [] then -1
    else if IsChange(log[|log| - 1]) then |log| - 1
    else LastChange(log[..|log| - 1])
  }

  /** The last change was a restart, so the container is being restarted. */
  predicate IsDown(log: seq<Entry>) {
    LastChange(log) >= 0 && log[LastChange(log)].restarted && log[LastChange(log)].event.Check?
  }

  /** The last `n` entries are all missed checks that changed nothing. */
  predicate EndsInMisses(log: seq<Entry>, n: nat) {
    n <= |log| && forall k :: |log| - n <= k < |log| ==> IsQuietMiss(log[k])
  }

  /** How many missed checks the log ends in. */
  function TrailingMisses(log: seq<Entry>): (n: nat)
    ensures EndsInMisses(log, n)
    ensures !EndsInMisses(log, n + 1)
  {
    if log == [] || !IsQuietMiss(log[|log| - 1]) then 0
    else
      var n := TrailingMisses(log[..|log| - 1]);
      assert forall k :: |log| - n - 2 <= k < |log| - 1 && 0 <= k ==> log[..|log| - 1][k] == log[k];
      n + 1
  }

  lemma {:induction false} RecordMatchesHistory(log: seq<Entry>, limits: Limits)
    requires Genuine(log, limits)
    ensures var w := After(log, limits);
            && (w.state == Restarting <==> IsDown(log))
            && (w.validUntil.Some? <==> IsDown(log))
            && (IsDown(log) ==>
                  && log[LastChange(log)].event.Check?
                  && w.failCount == 0
                  && w.validUntil.value == log[LastChange(log)].event.markedAt + limits.restartTimeout)
            && (!IsDown(log) ==> w.failCount == TrailingMisses(log) <= limits.maxPingRetries)
  {
    if log != [] {
      var before, last := log[..|log| - 1], log[|log| - 1];
      RecordMatchesHistory(before, limits);
      if IsChange(last) {
        assert LastChange(log) == |log| - 1;
      } else {
        assert LastChange(log) == LastChange(before);
      }
    }
  }

  /** Whether a check is to restart the worker, told from the worker's history alone. */
  predicate CallsForRestart(log: seq<Entry>, pong: bool, now: Time, limits: Limits) {
    if IsDown(log) then now >= log[LastChange(log)].event.markedAt + limits.restartTimeout
    else !pong && TrailingMisses(log) == limits.maxPingRetries
  }

  /** The record, which is all the code looks at, decides as the history does. */
  lemma RecordDecides(log: seq<Entry>, pong: bool, now: Time, limits: Limits)
    requires Genuine(log, limits)
    ensures Healthy(Ponged(After(log, limits), pong), now, limits) <==> !CallsForRestart(log, pong, now, limits)
  {
    RecordMatchesHistory(log, limits);
  }

  /**
   * Exact failure detection. A check restarts a running worker if and only if
   * it is a miss and exactly the `maxPingRetries` entries before it were misses
   * too, all since the last state change; it restarts a worker that is already
   * being restarted if and only if the deadline of that restart has been
   * reached.
   */
  lemma RestartedExactlyWhen(log: seq<Entry>, i: nat, limits: Limits)
    requires Genuine(log, limits) && i < |log| && log[i].event.Check?
    ensures log[i].restarted <==> CallsForRestart(log[..i], log[i].event.pong, log[i].event.now, limits)
  {
    GenuinePrefix(log, i + 1, limits);
    assert log[..i + 1][..i] == log[..i];
    RecordDecides(log[..i], log[i].event.pong, log[i].event.now, limits);
  }

  /**
   * A restart happens at the first check at or after the deadline: no earlier
   * check since the worker went down was that late.
   */
  lemma RestartedAtFirstLateCheck(log: seq<Entry>, i: nat, k: nat, limits: Limits)
    requires Genuine(log, limits) && k < i < |log|
    requires IsDown(log[..i]) && LastChange(log[..i]) < k
    ensures log[k].event.Check?
    ensures log[k].event.now < log[LastChange(log[..i])].event.markedAt + limits.restartTimeout
  {
    var j := LastChange(log[..i]);
    assert !IsChange(log[..i][k]);
    assert LastChange(log[..k]) == j by {
      LastChangeUnique(log[..k], j, log[..i]);
    }
    RestartedExactlyWhen(log, k, limits);
  }

  lemma LastChangeUnique(log: seq<Entry>, j: int, longer: seq<Entry>)
    requires 0 <= j < |log| <= |longer| && log == longer[..|log|]
    requires j == LastChange(longer)
    ensures LastChange(log) == j
  {
    assert IsChange(log[j]);
    var j' := LastChange(log);
    assert j' >= 0 && longer[j'] == log[j'];
  }

  lemma {:induction false} GenuinePrefix(log: seq<Entry>, n: nat, limits: Limits)
    requires Genuine(log, limits) && n <= |log|
    ensures Genuine(log[..n], limits)
    decreases |log|
  {
    if n < |log| {
      GenuinePrefix(log[..|log| - 1], n, limits);
      assert log[..|log| - 1][..n] == log[..n];
    } else {
      assert log[..n] == log;
    }
  }
}

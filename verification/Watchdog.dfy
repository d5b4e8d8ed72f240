/**
 * The ping/pong watchdog of one websocket connection. Ping and Pong frames, and
 * the echo of a Ping's payload, are those of section 5.5.2 and section 5.5.3 of
 * RFC 6455.
 */
module Watchdog {
  import opened Base
  import opened Registry

  datatype Options = Options(pingInterval: nat, pongTimeout: nat, maxMissedPongs: nat)

  const DEFAULTS := Options(5_000, 3_000, 2)

  /** `pingTimer` and `pongTimer` say whether the timers are set. */
  datatype Watch = Watch(
    phase: Phase,
    pingSeq: nat,
    missed: nat,
    waiting: bool,
    pingTimer: bool,
    pongTimer: bool,
    hardClosed: bool)

  const NEW_WATCH := Watch(Init, 0, 0, false, false, false, false)

  function Opened(w: Watch): Watch {
    w.(phase := Open, pingTimer := true)
  }

  function ClosedBy(w: Watch, hard: bool): Watch {
    if w.phase == Closed then w
    else w.(phase := Closed, pingTimer := false, pongTimer := false, hardClosed := hard)
  }

  /** What `ws.ping` does: the socket may be closed already, or the call may throw. */
  datatype PingOutcome = SocketGone | PingThrew | PingSent

  function PingFired(w: Watch, outcome: PingOutcome): Watch {
    if w.phase != Open then w
    else if outcome == SocketGone then ClosedBy(w, false)
    else if w.waiting then w
    else if outcome == PingThrew then ClosedBy(w.(waiting := true), false)
    else w.(waiting := true, pongTimer := true)
  }

  /** A pong whose payload spells the number `data` as the ping does; None for any other payload. */
  predicate Accepts(w: Watch, data: Option<nat>) {
    w.phase == Open && w.waiting && data == Some(w.pingSeq)
  }

  function PongArrived(w: Watch, data: Option<nat>): Watch {
    if Accepts(w, data)
    then w.(waiting := false, missed := 0, pingSeq := w.pingSeq + 1, pongTimer := false)
    else w
  }

  /** The timer reads `pingSeq` when it fires, so the sequence always matches. */
  function PongTimedOut(w: Watch, options: Options): Watch {
    if w.phase != Open || !w.waiting then w
    else
      var v := w.(waiting := false, missed := w.missed + 1, pingSeq := w.pingSeq + 1, pongTimer := false);
      if v.missed > options.maxMissedPongs then ClosedBy(v, true) else v
  }

  // ----- Untimed runs -----

  datatype Event =
    | OpenIt
    | PingTimer(outcome: PingOutcome)
    | Pong(data: Option<nat>)
    | PongTimer
    | CloseIt

  predicate Possible(w: Watch, e: Event) {
    match e
    case OpenIt => w.phase == Init
    case PingTimer(_) => w.pingTimer
    case Pong(_) => true
    case PongTimer => w.pongTimer
    case CloseIt => true
  }

  function After(w: Watch, e: Event, options: Options): Watch {
    match e
    case OpenIt => Opened(w)
    case PingTimer(outcome) => PingFired(w, outcome)
    case Pong(data) => PongArrived(w, data)
    case PongTimer => PongTimedOut(w, options)
    case CloseIt => ClosedBy(w, false)
  }

  function Run(events: seq<Event>, options: Options): Watch {
    if events == [] then NEW_WATCH
    else After(Run(events[..|events| - 1], options), events[|events| - 1], options)
  }

  predicate Feasible(events: seq<Event>, options: Options) {
    events == [] ||
    var before := events[..|events| - 1];
    Feasible(before, options) && Possible(Run(before, options), events[|events| - 1])
  }

  /** The finished rounds of a run, oldest first: true for an accepted pong, false for a miss. */
  function Rounds(events: seq<Event>, options: Options): seq<bool> {
    if events == [] then []
    else
      var before, last := events[..|events| - 1], events[|events| - 1];
      var w := Run(before, options);
      Rounds(before, options) + RoundOf(w, last)
  }

  /** The round that an event finishes, if any. */
  function RoundOf(w: Watch, e: Event): seq<bool> {
    if e.Pong? && Accepts(w, e.data) then [true]
    else if e.PongTimer? && w.phase == Open then [false]
    else []
  }

  predicate EndsInMisses(rounds: seq<bool>, n: nat) {
    n <= |rounds| && forall k :: |rounds| - n <= k < |rounds| ==> !rounds[k]
  }

  /** The length of the run of misses that `rounds` ends in. */
  function MissStreak(rounds: seq<bool>): (n: nat)
    ensures EndsInMisses(rounds, n)
    ensures n == |rounds| || rounds[|rounds| - 1 - n]
  {
    if rounds == [] || rounds[|rounds| - 1] then 0
    else MissStreak(rounds[..|rounds| - 1]) + 1
  }

  lemma StreakGrows(rounds: seq<bool>, b: bool)
    ensures MissStreak(rounds + [b]) == if b then 0 else MissStreak(rounds) + 1
  {
    assert (rounds + [b])[..|rounds|] == rounds;
  }

  predicate Exact(w: Watch, rounds: seq<bool>, options: Options) {
    && (w.phase == Open ==> w.waiting == w.pongTimer)
    && (w.pongTimer ==> w.phase == Open)
    && (w.pingTimer <==> w.phase == Open)
    && w.pingSeq == |rounds|
    && w.missed == MissStreak(rounds)
    && (w.hardClosed <==> MissStreak(rounds) == options.maxMissedPongs + 1)
    && MissStreak(rounds) <= options.maxMissedPongs + 1
    && (w.phase == Init ==> rounds == [] && !w.waiting)
    && (w.hardClosed ==> w.phase == Closed)
  }

  lemma ExactPong(w: Watch, rounds: seq<bool>, data: Option<nat>, options: Options)
    requires Exact(w, rounds, options) && Accepts(w, data)
    ensures Exact(PongArrived(w, data), rounds + [true], options)
  {
    StreakGrows(rounds, true);
  }

  lemma ExactMiss(w: Watch, rounds: seq<bool>, options: Options)
    requires Exact(w, rounds, options) && w.pongTimer
    ensures Exact(PongTimedOut(w, options), rounds + [false], options)
  {
    StreakGrows(rounds, false);
  }

  lemma ExactQuiet(w: Watch, rounds: seq<bool>, e: Event, options: Options)
    requires Exact(w, rounds, options) && Possible(w, e) && RoundOf(w, e) == []
    ensures Exact(After(w, e, options), rounds, options)
  {
  }

  lemma ExactStep(w: Watch, rounds: seq<bool>, e: Event, options: Options)
    requires Exact(w, rounds, options) && Possible(w, e)
    ensures Exact(After(w, e, options), rounds + RoundOf(w, e), options)
  {
    if e.Pong? && Accepts(w, e.data) {
      ExactPong(w, rounds, e.data, options);
    } else if e.PongTimer? {
      ExactMiss(w, rounds, options);
    } else {
      ExactQuiet(w, rounds, e, options);
      assert rounds + [] == rounds;
    }
  }

  /**
   * Watchdog exactness, over every feasible sequence of events: a ping is
   * outstanding exactly when the pong timer is set; the sequence number counts
   * the finished rounds; the miss counter is the streak of misses the rounds
   * end in; and the connection was hard-closed if and only if that streak has
   * reached `maxMissedPongs + 1`, which it never passes.
   */
  lemma {:induction false} WatchdogIsExact(events: seq<Event>, options: Options)
    requires Feasible(events, options)
    ensures Exact(Run(events, options), Rounds(events, options), options)
  {
    if events != [] {
      var before, last := events[..|events| - 1], events[|events| - 1];
      WatchdogIsExact(before, options);
      ExactStep(Run(before, options), Rounds(before, options), last, options);
    }
  }

  lemma OneMore(events: seq<Event>, e: Event, options: Options)
    ensures Run(events + [e], options) == After(Run(events, options), e, options)
    ensures Rounds(events + [e], options) == Rounds(events, options) + RoundOf(Run(events, options), e)
  {
    assert (events + [e])[..|events|] == events;
  }

  /**
   * Which pong counts, after any feasible sequence of events: only one on an
   * open connection with a ping outstanding, whose payload spells the number of
   * rounds finished before. It ends the round and forgets the misses. Any other
   * pong, such as a late one, changes nothing.
   */
  lemma PongCountsExactlyWhen(events: seq<Event>, options: Options, data: Option<nat>)
    requires Feasible(events, options)
    ensures var w, n, all := Run(events, options), |Rounds(events, options)|, events + [Pong(data)];
            if w.phase == Open && w.waiting && data == Some(n)
            then
              && Run(all, options) == w.(waiting := false, missed := 0, pingSeq := n + 1, pongTimer := false)
              && Rounds(all, options) == Rounds(events, options) + [true]
            else Run(all, options) == w && Rounds(all, options) == Rounds(events, options)
  {
    OneMore(events, Pong(data), options);
    assert Run(events, options).pingSeq == |Rounds(events, options)| by {
      WatchdogIsExact(events, options);
    }
    assert Rounds(events, options) + [] == Rounds(events, options);
  }

  /**
   * What an expired pong timer does, after any feasible sequence of events: it
   * ends the round as a miss, and closes the connection hard if the rounds then
   * end in more misses than allowed.
   */
  lemma MissClosesExactlyWhen(events: seq<Event>, options: Options)
    requires Feasible(events, options) && Possible(Run(events, options), PongTimer)
    ensures var w, v := Run(events, options), Run(events + [PongTimer], options);
            && Rounds(events + [PongTimer], options) == Rounds(events, options) + [false]
            && w.phase == Open && !v.waiting && v.pingSeq == w.pingSeq + 1
            && (v.phase == Open <==> MissStreak(Rounds(events, options)) < options.maxMissedPongs)
            && (v.phase != Open ==> v.phase == Closed && v.hardClosed)
  {
    OneMore(events, PongTimer, options);
    WatchdogIsExact(events, options);
  }

  /**
   * What the ping timer does, after any feasible sequence of events: a ping is
   * outstanding afterwards with its pong timer set, unless the socket is gone
   * or the ping could not be sent; then the connection is closed, not hard.
   */
  lemma PingLeavesExactly(events: seq<Event>, options: Options, outcome: PingOutcome)
    requires Feasible(events, options) && Possible(Run(events, options), PingTimer(outcome))
    ensures var w, v := Run(events, options), Run(events + [PingTimer(outcome)], options);
            && Rounds(events + [PingTimer(outcome)], options) == Rounds(events, options)
            && w.phase == Open && v.pingSeq == w.pingSeq && v.missed == w.missed
            && if outcome == SocketGone || (outcome == PingThrew && !w.waiting)
               then v.phase == Closed && !v.pingTimer && !v.pongTimer && !v.hardClosed
               else v.phase == Open && v.pingTimer && v.waiting && v.pongTimer
  {
    OneMore(events, PingTimer(outcome), options);
    WatchdogIsExact(events, options);
    assert Rounds(events, options) + [] == Rounds(events, options);
  }

  // ----- Timed runs -----

  /** `base` is when the last answered ping was sent, or when the connection was opened. */
  datatype Timed = Timed(
    w: Watch,
    now: Time,
    nextPing: Time,
    pongDue: Time,
    sentAt: Time,
    base: Time)

  datatype Move =
    | Wait(ms: nat)
    | FirePing(outcome: PingOutcome)
    | FirePong
    | Hear(data: Option<nat>)
    | Stop

  /** Time does not run past a timer that is due. */
  predicate CanMove(t: Timed, m: Move) {
    match m
    case Wait(ms) =>
      && (t.w.pingTimer ==> t.now + ms <= t.nextPing)
      && (t.w.pongTimer ==> t.now + ms <= t.pongDue)
    case FirePing(_) => t.w.pingTimer && t.now == t.nextPing
    case FirePong => t.w.pongTimer && t.now == t.pongDue
    case Hear(_) => true
    case Stop => true
  }

  function Moved(t: Timed, m: Move, options: Options): Timed {
    match m
    case Wait(ms) => t.(now := t.now + ms)
    case FirePing(outcome) =>
      var w := PingFired(t.w, outcome);
      var s := t.(w := w, nextPing := t.nextPing + options.pingInterval);
      if w.pongTimer && !t.w.pongTimer
      then s.(sentAt := t.now, pongDue := t.now + options.pongTimeout)
      else s
    case FirePong => t.(w := PongTimedOut(t.w, options))
    case Hear(data) =>
      if Accepts(t.w, data) then t.(w := PongArrived(t.w, data), base := t.sentAt) else t
    case Stop => t.(w := ClosedBy(t.w, false))
  }

  function OpenedAt(start: Time, options: Options): Timed {
    Timed(Opened(NEW_WATCH), start, start + options.pingInterval, start, start, start)
  }

  ghost predicate IsTimedRun(run: seq<Timed>, moves: seq<Move>, start: Time, options: Options) {
    && |run| == |moves| + 1
    && run[0] == OpenedAt(start, options)
    && forall i :: 0 <= i < |moves| ==> CanMove(run[i], moves[i]) && run[i + 1] == Moved(run[i], moves[i], options)
  }

  /** Where an open connection is in its schedule: pings go out every interval after `base`. */
  predicate OnSchedule(t: Timed, options: Options) {
    t.w.phase == Open ==>
      && t.w.waiting == t.w.pongTimer
      && t.w.pingTimer
      && t.w.missed <= options.maxMissedPongs
      && t.now <= t.nextPing
      && (t.w.waiting ==>
            && t.sentAt == t.base + (t.w.missed + 1) * options.pingInterval
            && t.pongDue == t.sentAt + options.pongTimeout
            && t.nextPing == t.sentAt + options.pingInterval
            && t.sentAt <= t.now <= t.pongDue)
      && (!t.w.waiting ==> t.nextPing == t.base + (t.w.missed + 1) * options.pingInterval)
  }

  lemma MoveKeepsSchedule(t: Timed, m: Move, options: Options)
    requires options.pongTimeout < options.pingInterval
    requires t.w.phase != Init && (t.w.pongTimer || t.w.pingTimer ==> t.w.phase == Open)
    requires OnSchedule(t, options) && CanMove(t, m)
    ensures OnSchedule(Moved(t, m, options), options)
    ensures var w := Moved(t, m, options).w; w.phase != Init && (w.pongTimer || w.pingTimer ==> w.phase == Open)
  {
    assert (t.w.missed + 2) * options.pingInterval ==
           (t.w.missed + 1) * options.pingInterval + options.pingInterval;
    assert (0 + 1) * options.pingInterval == options.pingInterval;
  }

  lemma {:induction false} RunKeepsSchedule(
    run: seq<Timed>, moves: seq<Move>, start: Time, options: Options, i: nat)
    requires IsTimedRun(run, moves, start, options) && i < |run|
    requires options.pongTimeout < options.pingInterval
    ensures OnSchedule(run[i], options)
    ensures run[i].w.phase != Init && (run[i].w.pongTimer || run[i].w.pingTimer ==> run[i].w.phase == Open)
  {
    if i == 0 {
      assert (0 + 1) * options.pingInterval == options.pingInterval;
    } else {
      RunKeepsSchedule(run, moves, start, options, i - 1);
      MoveKeepsSchedule(run[i - 1], moves[i - 1], options);
    }
  }

  /**
   * The time bound: if the pong timeout is shorter than the ping interval, no
   * connection is still open later than `(maxMissedPongs + 1)` intervals and
   * one timeout after its last answered ping was sent. The ping that is due
   * never meets one that is still outstanding.
   */
  lemma SilentPeerIsClosed(run: seq<Timed>, moves: seq<Move>, start: Time, options: Options, i: nat)
    requires IsTimedRun(run, moves, start, options) && i < |run|
    requires options.pongTimeout < options.pingInterval
    ensures run[i].w.phase == Open ==>
              run[i].now <= run[i].base + (options.maxMissedPongs + 1) * options.pingInterval + options.pongTimeout
    ensures i < |moves| && moves[i].FirePing? && run[i].w.phase == Open ==> !run[i].w.waiting
  {
    RunKeepsSchedule(run, moves, start, options, i);
    var t := run[i];
    if t.w.phase == Open {
      MulMonotone(t.w.missed + 1, options.maxMissedPongs + 1, options.pingInterval);
    }
  }

  /** With the default options a silent peer is closed within 18 seconds of its last answered ping. */
  lemma SilentPeerByDefault(run: seq<Timed>, moves: seq<Move>, start: Time, i: nat)
    requires IsTimedRun(run, moves, start, DEFAULTS) && i < |run|
    ensures run[i].w.phase == Open ==> run[i].now <= run[i].base + 18_000
  {
    SilentPeerIsClosed(run, moves, start, DEFAULTS, i);
  }

  lemma MulMonotone(a: nat, b: nat, c: nat)
    requires a <= b
    ensures a * c <= b * c
  {
  }
}

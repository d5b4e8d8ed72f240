/** The game server: one match per iteration, and what it publishes about each. */
module GameServers {
  import opened Base
  import opened Executors

  /** How a publish to the result stream ends. Only an acknowledgement tells that the entry was stored. */
  datatype Publish = Acknowledged | Unacknowledged(error: Error) | Lost(error: Error)

  datatype Entry = ResultEntry(matchId: int) | CancelEntry(matchId: int)

  /** One publish; the failure of a cancel's is only logged. */
  datatype Send = Send(entry: Entry, publish: Publish)

  /** What the surroundings do in one iteration. `fetched` is None when no match config arrives. */
  datatype Surroundings = Surroundings(
    fetched: Option<int>,
    fetchError: Error,
    start: StartOutcome,
    wait: WaitOutcome,
    readable: bool,
    stop: WaitOutcome,
    result: Publish,
    cancel: Publish)

  /** `runServer`: the executor is stopped again if and only if it started. */
  function MatchBy(e: Exec, x: Surroundings): Exec {
    if StartError(e, x.start).Some? then StartBy(e, x.start) else StopBy(StartBy(e, x.start), x.stop)
  }

  function MatchError(e: Exec, x: Surroundings): Option<Error> {
    if StartError(e, x.start).Some? then StartError(e, x.start)
    else GetResultError(StartBy(e, x.start), x.wait, x.readable)
  }

  /** How an iteration fails, if it does. */
  function IterationError(e: Exec, x: Surroundings): Option<Error> {
    if x.fetched.None? then Some(x.fetchError)
    else if MatchError(e, x).Some? then MatchError(e, x)
    else if x.result.Acknowledged? then None
    else Some(x.result.error)
  }

  /** The executor after a number of iterations; one that receives no config leaves it alone. */
  function MatchesFrom(e: Exec, xs: seq<Surroundings>): Exec {
    if xs == [] then e
    else
      var before, x := MatchesFrom(e, xs[..|xs| - 1]), xs[|xs| - 1];
      if x.fetched.Some? then MatchBy(before, x) else before
  }

  predicate FailsToStart(x: Surroundings) {
    x.fetched.Some? && x.start != Running
  }

  /**
   * A start that fails leaves the executor active, and nothing but `Close`
   * stops it again: later matches find it active if and only if an earlier one
   * failed to start. Each of them is refused and leaves everything as it was.
   */
  lemma {:induction false} StuckExactlyWhen(e: Exec, xs: seq<Surroundings>, next: Surroundings)
    requires !e.active
    ensures MatchesFrom(e, xs).active <==> exists j :: 0 <= j < |xs| && FailsToStart(xs[j])
    ensures MatchesFrom(e, xs).active <==> MatchError(MatchesFrom(e, xs), next) == Some(AlreadyActive)
    ensures MatchesFrom(e, xs).active ==> MatchBy(MatchesFrom(e, xs), next) == MatchesFrom(e, xs)
  {
    if xs != [] {
      var n := |xs| - 1;
      StuckExactlyWhen(e, xs[..n], xs[n]);
      if MatchesFrom(e, xs[..n]).active {
        var j :| 0 <= j < n && FailsToStart(xs[..n][j]);
        assert FailsToStart(xs[j]);
      } else {
        assert forall j :: 0 <= j < n ==> !FailsToStart(xs[..n][j]);
        assert forall j :: 0 <= j < n ==> xs[j] == xs[..n][j];
      }
    }
  }

  lemma {:induction false} MatchesInv(e: Exec, xs: seq<Surroundings>)
    requires Inv(e)
    ensures Inv(MatchesFrom(e, xs))
  {
    if xs != [] {
      var before, x := MatchesFrom(e, xs[..|xs| - 1]), xs[|xs| - 1];
      MatchesInv(e, xs[..|xs| - 1]);
      StartInv(before, x.start);
      StopInv(StartBy(before, x.start), x.stop);
    }
  }

  /** After `Close`, however the matches went, nothing that the server ever created or started is left. */
  lemma CloseReleasesAll(xs: seq<Surroundings>, stop: WaitOutcome, i: nat)
    requires i < |StopBy(MatchesFrom(NEW_EXEC, xs), stop).trace|
    ensures var t := StopBy(MatchesFrom(NEW_EXEC, xs), stop).trace;
            && (t[i].Create? ==> LetGo(t, i, Remove(t[i].file)))
            && (t[i].Spawn? ==> LetGo(t, i, Kill(t[i].group)))
  {
    MatchesInv(NEW_EXEC, xs);
    StopInv(MatchesFrom(NEW_EXEC, xs), stop);
    AllAccounted(StopBy(MatchesFrom(NEW_EXEC, xs), stop).trace, i);
  }

  // ----- What is published -----

  /** The publishes of one iteration, which begins with the executor as `e`. */
  function SentBy(e: Exec, x: Surroundings): seq<Send> {
    if x.fetched.None? then []
    else
      var result, cancel :=
        Send(ResultEntry(x.fetched.value), x.result), Send(CancelEntry(x.fetched.value), x.cancel);
      if MatchError(e, x).Some? then [cancel]
      else if x.result.Acknowledged? then [result]
      else [result, cancel]
  }

  function AllSent(e: Exec, xs: seq<Surroundings>): seq<Send> {
    if xs == [] then []
    else
      var before := xs[..|xs| - 1];
      AllSent(e, before) + SentBy(MatchesFrom(e, before), xs[|xs| - 1])
  }

  /** The state and the log of publishes after one iteration more. */
  lemma OneMore(e: Exec, xs: seq<Surroundings>, n: nat, sent: seq<Send>)
    requires n < |xs|
    ensures var q := MatchesFrom(e, xs[..n]);
            && MatchesFrom(e, xs[..n + 1]) == (if xs[n].fetched.Some? then MatchBy(q, xs[n]) else q)
            && sent + AllSent(e, xs[..n + 1]) == sent + AllSent(e, xs[..n]) + SentBy(q, xs[n])
  {
    assert xs[..n + 1][..n] == xs[..n];
  }

  /** What the result stream holds after some publishes. */
  function Stream(sends: seq<Send>): seq<Entry> {
    if sends == [] then []
    else
      var before, last := Stream(sends[..|sends| - 1]), sends[|sends| - 1];
      if last.publish.Lost? then before else before + [last.entry]
  }

  /** The entries of a stream for one match. */
  function EntriesFor(stream: seq<Entry>, id: int): seq<Entry> {
    if stream == [] then []
    else
      var before, last := EntriesFor(stream[..|stream| - 1], id), stream[|stream| - 1];
      if last.matchId == id then before + [last] else before
  }

  lemma {:induction false} StreamPlus(a: seq<Send>, b: seq<Send>)
    ensures Stream(a + b) == Stream(a) + Stream(b)
  {
    if b == [] {
      assert a + b == a;
    } else {
      assert (a + b)[..|a + b| - 1] == a + b[..|b| - 1];
      StreamPlus(a, b[..|b| - 1]);
    }
  }

  lemma {:induction false} EntriesPlus(a: seq<Entry>, b: seq<Entry>, id: int)
    ensures EntriesFor(a + b, id) == EntriesFor(a, id) + EntriesFor(b, id)
  {
    if b == [] {
      assert a + b == a;
    } else {
      assert (a + b)[..|a + b| - 1] == a + b[..|b| - 1];
      EntriesPlus(a, b[..|b| - 1], id);
    }
  }

  lemma StreamOfOne(s: Send)
    ensures Stream([s]) == if s.publish.Lost? then [] else [s.entry]
  {
    assert [s][..0] == [];
  }

  lemma StreamOfTwo(s: Send, t: Send)
    ensures Stream([s, t]) == Stream([s]) + Stream([t])
  {
    assert [s] + [t] == [s, t];
    StreamPlus([s], [t]);
  }

  /**
   * What one iteration leaves in the stream: a result exactly if the match ran
   * well and the result was stored; then a cancel exactly if it did not run
   * well or its result was not acknowledged, and the cancel was stored.
   */
  lemma IterationEntries(e: Exec, x: Surroundings)
    requires x.fetched.Some?
    ensures Stream(SentBy(e, x)) ==
            (if MatchError(e, x).None? && !x.result.Lost? then [ResultEntry(x.fetched.value)] else []) +
            (if (MatchError(e, x).Some? || !x.result.Acknowledged?) && !x.cancel.Lost?
             then [CancelEntry(x.fetched.value)] else [])
  {
    var result, cancel :=
      Send(ResultEntry(x.fetched.value), x.result), Send(CancelEntry(x.fetched.value), x.cancel);
    StreamOfOne(result);
    StreamOfOne(cancel);
    StreamOfTwo(result, cancel);
  }

  lemma {:induction false} EntriesOfOneMatch(stream: seq<Entry>, m: int, id: int)
    requires forall k :: 0 <= k < |stream| ==> stream[k].matchId == m
    ensures EntriesFor(stream, id) == if m == id then stream else []
  {
    if stream != [] {
      var before := stream[..|stream| - 1];
      EntriesOfOneMatch(before, m, id);
      assert stream == before + [stream[|stream| - 1]];
    }
  }

  lemma IterationNamesItsMatch(e: Exec, x: Surroundings)
    requires x.fetched.Some?
    ensures forall k :: 0 <= k < |Stream(SentBy(e, x))| ==> Stream(SentBy(e, x))[k].matchId == x.fetched.value
  {
    IterationEntries(e, x);
  }

  lemma OnlyItsOwnEntries(e: Exec, x: Surroundings, id: int)
    ensures EntriesFor(Stream(SentBy(e, x)), id) ==
            if x.fetched == Some(id) then Stream(SentBy(e, x)) else []
  {
    if x.fetched.Some? {
      IterationNamesItsMatch(e, x);
      EntriesOfOneMatch(Stream(SentBy(e, x)), x.fetched.value, id);
    }
  }

  /** Match ids are used once, so no two configs name the same match. */
  predicate DistinctMatches(xs: seq<Surroundings>) {
    forall i, j :: 0 <= i < j < |xs| && xs[i].fetched.Some? ==> xs[i].fetched != xs[j].fetched
  }

  lemma EntriesOfLast(e: Exec, xs: seq<Surroundings>, id: int)
    requires xs != []
    ensures var before, x := xs[..|xs| - 1], xs[|xs| - 1];
            EntriesFor(Stream(AllSent(e, xs)), id) ==
            EntriesFor(Stream(AllSent(e, before)), id) +
            if x.fetched == Some(id) then Stream(SentBy(MatchesFrom(e, before), x)) else []
  {
    var before, x := xs[..|xs| - 1], xs[|xs| - 1];
    StreamPlus(AllSent(e, before), SentBy(MatchesFrom(e, before), x));
    EntriesPlus(Stream(AllSent(e, before)), Stream(SentBy(MatchesFrom(e, before), x)), id);
    OnlyItsOwnEntries(MatchesFrom(e, before), x, id);
  }

  lemma {:induction false} EntriesOfOthers(e: Exec, xs: seq<Surroundings>, id: int)
    requires forall j :: 0 <= j < |xs| ==> xs[j].fetched != Some(id)
    ensures EntriesFor(Stream(AllSent(e, xs)), id) == []
  {
    if xs != [] {
      EntriesOfOthers(e, xs[..|xs| - 1], id);
      EntriesOfLast(e, xs, id);
    }
  }

  lemma EntriesOfNewest(e: Exec, xs: seq<Surroundings>, id: int)
    requires xs != [] && DistinctMatches(xs) && xs[|xs| - 1].fetched == Some(id)
    ensures EntriesFor(Stream(AllSent(e, xs)), id) ==
            Stream(SentBy(MatchesFrom(e, xs[..|xs| - 1]), xs[|xs| - 1]))
  {
    EntriesOfLast(e, xs, id);
    EntriesOfOthers(e, xs[..|xs| - 1], id);
  }

  /** Over any run, the entries of a match are those of the one iteration that received it. */
  lemma {:induction false} EntriesOfMatch(e: Exec, xs: seq<Surroundings>, i: nat)
    requires DistinctMatches(xs) && i < |xs| && xs[i].fetched.Some?
    ensures EntriesFor(Stream(AllSent(e, xs)), xs[i].fetched.value) ==
            Stream(SentBy(MatchesFrom(e, xs[..i]), xs[i]))
  {
    var id, before := xs[i].fetched.value, xs[..|xs| - 1];
    if i == |xs| - 1 {
      EntriesOfNewest(e, xs, id);
    } else {
      EntriesOfLast(e, xs, id);
      EntriesOfMatch(e, before, i);
      assert before[..i] == xs[..i];
    }
  }

  /** The match ran to a result that could be read. */
  predicate RanWell(e: Exec, x: Surroundings) {
    MatchError(e, x).None?
  }

  /**
   * Which matches run well: those that find no earlier match stuck, whose server
   * starts, exits well and leaves a result that can be read.
   */
  lemma {:induction false} RunsWellExactlyWhen(xs: seq<Surroundings>, x: Surroundings)
    ensures RanWell(MatchesFrom(NEW_EXEC, xs), x) <==>
            && (forall j :: 0 <= j < |xs| ==> xs[j].fetched.None? || xs[j].start == Running)
            && x.start == Running && x.wait == Exited(true) && x.readable
  {
    StuckExactlyWhen(NEW_EXEC, xs, x);
    assert forall j :: 0 <= j < |xs| ==> (FailsToStart(xs[j]) <==> xs[j].fetched.Some? && xs[j].start != Running);
  }

  /**
   * How many entries a received match leaves in the stream over any run. None
   * if and only if every publish for it was lost; two if and only if its result
   * was stored without an acknowledgement and the cancel was stored as well,
   * and then the cancel comes last; one otherwise.
   */
  lemma EntriesExactly(e: Exec, xs: seq<Surroundings>, i: nat)
    requires DistinctMatches(xs) && i < |xs| && xs[i].fetched.Some?
    ensures var x, ran := xs[i], RanWell(MatchesFrom(e, xs[..i]), xs[i]);
            var entries := EntriesFor(Stream(AllSent(e, xs)), x.fetched.value);
            && |entries| <= 2
            && (|entries| == 0 <==> x.cancel.Lost? && (ran ==> x.result.Lost?))
            && (|entries| == 2 <==> ran && x.result.Unacknowledged? && !x.cancel.Lost?)
            && (|entries| == 2 ==> entries == [ResultEntry(x.fetched.value), CancelEntry(x.fetched.value)])
            && (|entries| == 1 ==>
                  entries[0] == if ran && !x.result.Lost? then ResultEntry(x.fetched.value)
                                else CancelEntry(x.fetched.value))
  {
    EntriesOfMatch(e, xs, i);
    IterationEntries(MatchesFrom(e, xs[..i]), xs[i]);
  }

  // ----- What is attempted -----

  /** The matches whose result was acknowledged or whose cancel was published, stored or not. */
  function Attended(sends: seq<Send>): seq<int> {
    if sends == [] then []
    else
      var before, last := Attended(sends[..|sends| - 1]), sends[|sends| - 1];
      if last.entry.ResultEntry? && !last.publish.Acknowledged? then before else before + [last.entry.matchId]
  }

  lemma AttendedPlus(sends: seq<Send>, s: Send)
    ensures Attended(sends + [s]) ==
            if s.entry.ResultEntry? && !s.publish.Acknowledged? then Attended(sends)
            else Attended(sends) + [s.entry.matchId]
  {
    assert (sends + [s])[..|sends|] == sends;
  }

  /** Iteration `m` fails with a cancellation. */
  predicate EndsRun(e: Exec, xs: seq<Surroundings>, m: nat)
    requires m < |xs|
  {
    IterationError(MatchesFrom(e, xs[..m]), xs[m]) == Some(Canceled)
  }

  /** No iteration before the `n`-th fails with a cancellation. */
  predicate NoneEnds(e: Exec, xs: seq<Surroundings>, n: int)
    requires n <= |xs|
  {
    forall m :: 0 <= m < n ==> !EndsRun(e, xs, m)
  }

  class Server {
    const executor: Executor
    var isOpen: bool
    var closed: bool
    /** The match ids of the configs received, and what the broker was sent. */
    var received: seq<int>
    var sends: seq<Send>

    constructor ()
      ensures fresh(executor) && executor.Value() == NEW_EXEC
      ensures !isOpen && !closed && received == [] && sends == []
    {
      executor := new Executor();
      isOpen, closed, received, sends := false, false, [], [];
    }

    /** `broker` is the error of opening the broker connection. */
    method Open(broker: Option<Error>) returns (err: Option<Error>)
      modifies this`isOpen
      ensures err == if closed then Some(AlreadyClosed) else if old(isOpen) then Some(AlreadyOpened) else broker
      ensures isOpen == (old(isOpen) || err.None?)
    {
      if closed {
        return Some(AlreadyClosed);
      }
      if isOpen {
        return Some(AlreadyOpened);
      }
      if broker.Some? {
        return broker;
      }
      isOpen := true;
      return None;
    }

    method RunServer(x: Surroundings) returns (err: Option<Error>)
      modifies executor
      ensures executor.Value() == MatchBy(old(executor.Value()), x)
      ensures err == MatchError(old(executor.Value()), x)
    {
      var startErr := executor.Start(x.start);
      if startErr.Some? {
        return startErr;
      }
      err := executor.GetResult(x.wait, x.readable);
      var _ := executor.Stop(x.stop);
    }

    /** The match received has its result acknowledged, or else a cancel published for it, and never both. */
    method RunMatch(x: Surroundings) returns (err: Option<Error>)
      modifies executor, this`received, this`sends
      ensures received == if x.fetched.Some? then old(received) + [x.fetched.value] else old(received)
      ensures executor.Value() ==
              if x.fetched.Some? then MatchBy(old(executor.Value()), x) else old(executor.Value())
      ensures sends == old(sends) + SentBy(old(executor.Value()), x)
      ensures old(Attended(sends) == received) ==> Attended(sends) == received
      ensures err.None? <==> x.fetched.Some? && RanWell(old(executor.Value()), x) && x.result.Acknowledged?
      ensures err == IterationError(old(executor.Value()), x)
    {
      if x.fetched.None? {
        return Some(x.fetchError);
      }
      var matchId := x.fetched.value;
      received := received + [matchId];
      err := RunServer(x);
      if err.Some? {
        SendCancel(matchId, x.cancel);
        return;
      }
      AttendedPlus(sends, Send(ResultEntry(matchId), x.result));
      sends := sends + [Send(ResultEntry(matchId), x.result)];
      if !x.result.Acknowledged? {
        SendCancel(matchId, x.cancel);
        return Some(x.result.error);
      }
    }

    method SendCancel(matchId: int, publish: Publish)
      modifies this`sends
      ensures sends == old(sends) + [Send(CancelEntry(matchId), publish)]
      ensures Attended(sends) == Attended(old(sends)) + [matchId]
    {
      AttendedPlus(sends, Send(CancelEntry(matchId), publish));
      sends := sends + [Send(CancelEntry(matchId), publish)];
    }

    /**
     * The loop, for as long as its context lives: it ends before iteration
     * `|xs|`, when the context is found cancelled, or as soon as an iteration
     * fails with a cancellation; `cancelled` says whether that was the
     * context's own. What it publishes is what `AllSent` says.
     */
    method Run(xs: seq<Surroundings>, cancelled: bool) returns (err: Option<Error>, n: nat)
      modifies executor, this`received, this`sends
      ensures n <= |xs| && executor.Value() == MatchesFrom(old(executor.Value()), xs[..n])
      ensures sends == old(sends) + AllSent(old(executor.Value()), xs[..n])
      ensures old(Attended(sends) == received) ==> Attended(sends) == received
      ensures !isOpen ==> err == Some(NotOpened) && n == 0
      ensures isOpen && closed ==> err == Some(AlreadyClosed) && n == 0
      ensures isOpen && !closed ==>
                if n > 0 && EndsRun(old(executor.Value()), xs, n - 1)
                then err == if cancelled then Some(Canceled) else None
                else n == |xs| && err == Some(Canceled)
      ensures NoneEnds(old(executor.Value()), xs, n - 1)
    {
      if !isOpen {
        return Some(NotOpened), 0;
      }
      if closed {
        return Some(AlreadyClosed), 0;
      }
      var ended;
      ended, n := Loop(xs);
      err := if ended && !cancelled then None else Some(Canceled);
    }

    /** The iterations; `ended` says that the last of them failed with a cancellation. */
    method Loop(xs: seq<Surroundings>) returns (ended: bool, n: nat)
      modifies executor, this`received, this`sends
      ensures HasRun(old(executor.Value()), old(sends), xs, n)
      ensures old(Attended(sends) == received) ==> Attended(sends) == received
      ensures n <= |xs| && (ended <==> n > 0 && EndsRun(old(executor.Value()), xs, n - 1))
      ensures !ended ==> n == |xs|
      ensures NoneEnds(old(executor.Value()), xs, n - 1)
    {
      n := 0;
      ghost var start, sent := executor.Value(), sends;
      while n < |xs|
        invariant HasRun(start, sent, xs, n)
        invariant old(Attended(sends) == received) ==> Attended(sends) == received
        invariant NoneEnds(start, xs, n)
      {
        var iterationErr := RunNext(xs, n, start, sent);
        n := n + 1;
        if iterationErr == Some(Canceled) {
          return true, n;
        }
      }
      return false, n;
    }

    /** The loop has done `n` iterations since the executor was `start` and the publishes `sent`. */
    ghost predicate HasRun(start: Exec, sent: seq<Send>, xs: seq<Surroundings>, n: nat)
      reads this, executor
    {
      && n <= |xs| && executor.Value() == MatchesFrom(start, xs[..n])
      && sends == sent + AllSent(start, xs[..n])
    }

    method RunNext(xs: seq<Surroundings>, n: nat, ghost start: Exec, ghost sent: seq<Send>)
      returns (err: Option<Error>)
      requires n < |xs| && HasRun(start, sent, xs, n)
      modifies executor, this`received, this`sends
      ensures HasRun(start, sent, xs, n + 1)
      ensures err == Some(Canceled) <==> EndsRun(start, xs, n)
      ensures old(Attended(sends) == received) ==> Attended(sends) == received
    {
      OneMore(start, xs, n, sent);
      err := RunMatch(xs[n]);
    }

    /** Stops whatever the executor still holds, even after a start that failed. */
    method Close(stop: WaitOutcome, broker: Option<Error>) returns (err: Option<Error>)
      modifies this`closed, executor
      ensures err == if !isOpen then Some(NotOpened) else if old(closed) then Some(AlreadyClosed) else broker
      ensures closed == (isOpen || old(closed))
      ensures executor.Value() ==
              if isOpen && !old(closed) then StopBy(old(executor.Value()), stop) else old(executor.Value())
    {
      if !isOpen {
        return Some(NotOpened);
      }
      if closed {
        return Some(AlreadyClosed);
      }
      closed := true;
      var _ := executor.Stop(stop);
      return broker;
    }
  }
}

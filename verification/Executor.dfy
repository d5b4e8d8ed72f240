/**
 * The executor of one game-server process: what it holds of the operating
 * system, over any run of starts and stops, including starts that fail half
 * way. Removing a file and killing a group mean that the request was made.
 */
module Executors {
  import opened Base

  datatype Role = Config | ResultFile

  /** Requests to the operating system. File and group numbers stand for fresh names. */
  datatype Act =
    | Create(role: Role, file: nat)
    | Remove(file: nat)
    | Spawn(group: nat)
    | Terminate(group: nat)
    | Kill(group: nat)
    | Await(group: nat)

  datatype Error =
    | AlreadyActive | NotActive | NoTempFile | WriteFailed | StartFailed
    | NotOpened | AlreadyOpened | AlreadyClosed
    | Canceled | Panic | Other

  /** How far `Start` gets. */
  datatype StartOutcome = NoConfigFile | ConfigUnwritten | NoResultFile | CommandFailed | Running

  /** How waiting for the process ends: it exits, the context is cancelled, or its deadline passes. */
  datatype WaitOutcome = Exited(ok: bool) | CtxCanceled | DeadlineExceeded

  /** A command; `process` is set once it has started. */
  datatype Cmd = Cmd(process: Option<nat>)

  /** The executor's fields, and the operating system's record of it. */
  datatype Exec = Exec(
    active: bool,
    config: Option<nat>,
    result: Option<nat>,
    cmd: Option<Cmd>,
    waiter: bool,
    pgid: nat,
    files: nat,
    groups: nat,
    trace: seq<Act>)

  const NEW_EXEC := Exec(false, None, None, None, false, 0, 0, 1, [])

  // ----- What the operations amount to -----

  function CreateIn(e: Exec, role: Role): Exec {
    var made := e.(files := e.files + 1, trace := e.trace + [Create(role, e.files)]);
    if role == Config then made.(config := Some(e.files)) else made.(result := Some(e.files))
  }

  /** The result file and a command that has not started. */
  function PrepareIn(e: Exec): Exec {
    CreateIn(e, ResultFile).(cmd := Some(Cmd(None)), waiter := true)
  }

  function SpawnIn(e: Exec): Exec {
    e.(cmd := Some(Cmd(Some(e.groups))), pgid := e.groups, groups := e.groups + 1, trace := e.trace + [Spawn(e.groups)])
  }

  function StartBy(e: Exec, o: StartOutcome): Exec {
    if e.active then e
    else if o == NoConfigFile then e.(active := true)
    else
      var e1 := CreateIn(e.(active := true), Config);
      if o == ConfigUnwritten || o == NoResultFile then e1
      else if o == CommandFailed then PrepareIn(e1)
      else SpawnIn(PrepareIn(e1))
  }

  function StartError(e: Exec, o: StartOutcome): Option<Error> {
    if e.active then Some(AlreadyActive)
    else match o
      case NoConfigFile => Some(NoTempFile)
      case ConfigUnwritten => Some(WriteFailed)
      case NoResultFile => Some(NoTempFile)
      case CommandFailed => Some(StartFailed)
      case Running => None
  }

  function Process(e: Exec): Option<nat> {
    if e.cmd.Some? then e.cmd.value.process else None
  }

  /** Only a cancelled context makes the executor wait for the process after the kill. */
  function StopActs(e: Exec, w: WaitOutcome): seq<Act> {
    if Process(e).None? then []
    else if w == CtxCanceled then [Terminate(Process(e).value), Kill(e.pgid), Await(Process(e).value)]
    else [Terminate(Process(e).value), Kill(e.pgid)]
  }

  function RemoveActs(file: Option<nat>): seq<Act> {
    if file.Some? then [Remove(file.value)] else []
  }

  function StopBy(e: Exec, w: WaitOutcome): Exec {
    if !e.active then e
    else Exec(false, None, None, None, false, 0, e.files, e.groups,
              e.trace + StopActs(e, w) + RemoveActs(e.config) + RemoveActs(e.result))
  }

  /** A deadline that passes is no error, and neither is any exit code. */
  function StopError(e: Exec, w: WaitOutcome): Option<Error> {
    if !e.active then Some(NotActive)
    else if Process(e).Some? && w == CtxCanceled then Some(Canceled)
    else None
  }

  /** `GetResult`; without a waiter, that is after an early failure of `Start`, it dereferences nil. */
  function GetResultError(e: Exec, w: WaitOutcome, readable: bool): Option<Error> {
    if !e.active then Some(NotActive)
    else if !e.waiter then Some(Panic)
    else if w == CtxCanceled then Some(Canceled)
    else if Process(e).None? || w != Exited(true) || !readable then Some(Other)
    else None
  }

  // ----- The class -----

  class Executor {
    var active: bool
    var configFile: Option<nat>
    var resultFile: Option<nat>
    var cmd: Option<Cmd>
    var cmdWaiter: bool
    var pgid: nat
    /** The operating system: the next fresh names, and the requests it has had. */
    var files: nat
    var groups: nat
    var trace: seq<Act>

    constructor ()
      ensures Value() == NEW_EXEC
    {
      active, configFile, resultFile, cmd, cmdWaiter, pgid := false, None, None, None, false, 0;
      files, groups, trace := 0, 1, [];
    }

    function Value(): Exec
      reads this
    {
      Exec(active, configFile, resultFile, cmd, cmdWaiter, pgid, files, groups, trace)
    }

    method CreateTempFile(role: Role) returns (file: nat)
      modifies this`files, this`trace
      ensures file == old(files) && files == old(files) + 1 && trace == old(trace) + [Create(role, file)]
    {
      file := files;
      files := files + 1;
      trace := trace + [Create(role, file)];
    }

    method RemoveFile(file: nat)
      modifies this`trace
      ensures trace == old(trace) + [Remove(file)]
    {
      trace := trace + [Remove(file)];
    }

    method Start(o: StartOutcome) returns (err: Option<Error>)
      modifies this
      ensures Value() == StartBy(old(Value()), o)
      ensures err == StartError(old(Value()), o)
      ensures active && (err.None? <==> !old(active) && o == Running)
      ensures old(active) ==> Value() == old(Value()) && err == Some(AlreadyActive)
      ensures err.None? ==>
                && configFile == Some(old(files)) && resultFile == Some(old(files) + 1) && cmdWaiter
                && cmd == Some(Cmd(Some(old(groups)))) && pgid == old(groups)
                && trace == old(trace) + [Create(Config, old(files)), Create(ResultFile, old(files) + 1), Spawn(pgid)]
    {
      if active {
        return Some(AlreadyActive);
      }
      active := true;
      if o == NoConfigFile {
        return Some(NoTempFile);
      }
      var config := CreateTempFile(Config);
      configFile := Some(config);
      assert Value() == CreateIn(old(Value()).(active := true), Config);
      if o == ConfigUnwritten {
        return Some(WriteFailed);
      }
      err := Launch(o);
    }

    /** The second half of `Start`: the result file and the process. */
    method Launch(o: StartOutcome) returns (err: Option<Error>)
      requires o == NoResultFile || o == CommandFailed || o == Running
      modifies this
      ensures Value() == if o == NoResultFile then old(Value())
                         else if o == CommandFailed then PrepareIn(old(Value()))
                         else SpawnIn(PrepareIn(old(Value())))
      ensures err == if o == NoResultFile then Some(NoTempFile)
                     else if o == CommandFailed then Some(StartFailed)
                     else None
    {
      if o == NoResultFile {
        return Some(NoTempFile);
      }
      var result := CreateTempFile(ResultFile);
      resultFile := Some(result);
      cmd := Some(Cmd(None));
      cmdWaiter := true;
      if o == CommandFailed {
        return Some(StartFailed);
      }
      cmd := Some(Cmd(Some(groups)));
      trace := trace + [Spawn(groups)];
      pgid := groups;
      groups := groups + 1;
      return None;
    }

    method Stop(w: WaitOutcome) returns (err: Option<Error>)
      modifies this
      ensures Value() == StopBy(old(Value()), w)
      ensures err == StopError(old(Value()), w)
      ensures !active && (old(active) ==> configFile.None? && resultFile.None? && cmd.None? && !cmdWaiter && pgid == 0)
      ensures err == Some(NotActive) <==> !old(active)
    {
      if !active {
        return Some(NotActive);
      }
      err := None;
      if cmd.Some? {
        err := StopCommand(w);
        cmd := None;
      }
      pgid := 0;
      cmdWaiter := false;
      RemoveFiles();
      active := false;
    }

    method RemoveFiles()
      modifies this`configFile, this`resultFile, this`trace
      ensures configFile.None? && resultFile.None?
      ensures trace == old(trace) + RemoveActs(old(configFile)) + RemoveActs(old(resultFile))
    {
      if configFile.Some? {
        RemoveFile(configFile.value);
        configFile := None;
      }
      if resultFile.Some? {
        RemoveFile(resultFile.value);
        resultFile := None;
      }
    }

    method GetResult(w: WaitOutcome, readable: bool) returns (err: Option<Error>)
      ensures err == GetResultError(Value(), w, readable)
      ensures err.None? <==>
              && active && cmdWaiter && cmd.Some? && cmd.value.process.Some?
              && w == Exited(true) && readable
      ensures err == Some(NotActive) <==> !active
      ensures err == Some(Canceled) <==> active && cmdWaiter && w == CtxCanceled
    {
      if !active {
        return Some(NotActive);
      }
      if !cmdWaiter {
        return Some(Panic);
      }
      if w == CtxCanceled {
        return Some(Canceled);
      }
      if cmd.None? || cmd.value.process.None? || w != Exited(true) {
        return Some(Other);
      }
      return if readable then None else Some(Other);
    }

    method StopCommand(w: WaitOutcome) returns (err: Option<Error>)
      modifies this`trace
      ensures trace == old(trace) + StopActs(old(Value()), w)
      ensures err == if Process(old(Value())).Some? && w == CtxCanceled then Some(Canceled) else None
      ensures trace == if cmd.None? || cmd.value.process.None? then old(trace)
                       else
                         old(trace) + [Terminate(cmd.value.process.value), Kill(pgid)]
                         + if w == CtxCanceled then [Await(cmd.value.process.value)] else []
    {
      if cmd.None? || cmd.value.process.None? {
        return None;
      }
      trace := trace + [Terminate(cmd.value.process.value)];
      if w == CtxCanceled {
        trace := trace + [Kill(pgid)];
        trace := trace + [Await(cmd.value.process.value)];
        return Some(Canceled);
      } else {
        trace := trace + [Kill(pgid)];
        return None;
      }
    }
  }

  // ----- What is held, read off the requests alone -----

  /** What a trace leaves live, and how many names it has used. */
  datatype Holding = Holding(config: Option<nat>, result: Option<nat>, group: Option<nat>, files: nat, groups: nat)

  /** One request; None if it should not have been made. */
  function Step(h: Holding, a: Act): Option<Holding> {
    match a
    case Create(Config, f) =>
      if h.config.None? && f == h.files then Some(h.(config := Some(f), files := f + 1)) else None
    case Create(ResultFile, f) =>
      if h.result.None? && f == h.files then Some(h.(result := Some(f), files := f + 1)) else None
    case Remove(f) =>
      if h.config == Some(f) then Some(h.(config := None))
      else if h.result == Some(f) then Some(h.(result := None))
      else None
    case Spawn(g) =>
      if h.group.None? && g == h.groups then Some(h.(group := Some(g), groups := g + 1)) else None
    case Terminate(g) => if h.group == Some(g) then Some(h) else None
    case Kill(g) => if h.group == Some(g) then Some(h.(group := None)) else None
    case Await(_) => if h.group.None? then Some(h) else None
  }

  const NOTHING := Holding(None, None, None, 0, 1)

  function Held(trace: seq<Act>): Option<Holding> {
    if trace == [] then Some(NOTHING)
    else
      var before := Held(trace[..|trace| - 1]);
      if before.None? then None else Step(before.value, trace[|trace| - 1])
  }

  /** Whatever a trace has created or started is either still held or was let go of later. */
  ghost predicate Accounted(trace: seq<Act>, i: nat)
    requires i < |trace| && Held(trace).Some?
  {
    var h := Held(trace).value;
    && (trace[i].Create? ==>
          (if trace[i].role == Config then h.config else h.result) == Some(trace[i].file) ||
          LetGo(trace, i, Remove(trace[i].file)))
    && (trace[i].Spawn? ==> h.group == Some(trace[i].group) || LetGo(trace, i, Kill(trace[i].group)))
  }

  ghost predicate LetGo(trace: seq<Act>, i: nat, a: Act) {
    exists j :: i < j < |trace| && trace[j] == a
  }

  lemma LetGoKept(trace: seq<Act>, a: Act, i: nat, goal: Act)
    requires LetGo(trace, i, goal) || (i < |trace| && a == goal)
    ensures LetGo(trace + [a], i, goal)
  {
    if LetGo(trace, i, goal) {
      var j :| i < j < |trace| && trace[j] == goal;
      assert (trace + [a])[j] == goal;
    } else {
      assert (trace + [a])[|trace|] == goal;
    }
  }

  lemma {:induction false} AllAccounted(trace: seq<Act>, i: nat)
    requires Held(trace).Some? && i < |trace|
    ensures Accounted(trace, i)
  {
    var before, a := trace[..|trace| - 1], trace[|trace| - 1];
    assert trace == before + [a];
    if i < |before| {
      AllAccounted(before, i);
      assert before[i] == trace[i];
      if trace[i].Create? && (LetGo(before, i, Remove(trace[i].file)) || a == Remove(trace[i].file)) {
        LetGoKept(before, a, i, Remove(trace[i].file));
      }
      if trace[i].Spawn? && (LetGo(before, i, Kill(trace[i].group)) || a == Kill(trace[i].group)) {
        LetGoKept(before, a, i, Kill(trace[i].group));
      }
    }
  }

  lemma {:induction false} PrefixHeld(trace: seq<Act>, n: nat)
    requires Held(trace).Some? && n <= |trace|
    ensures Held(trace[..n]).Some?
  {
    if n == |trace| {
      assert trace[..n] == trace;
    } else {
      PrefixHeld(trace[..|trace| - 1], n);
      assert trace[..|trace| - 1][..n] == trace[..n];
    }
  }

  // ----- Every run of starts and stops -----

  datatype Event = Started(o: StartOutcome) | Stopped(w: WaitOutcome)

  function After(e: Exec, event: Event): Exec {
    match event
    case Started(o) => StartBy(e, o)
    case Stopped(w) => StopBy(e, w)
  }

  function Run(events: seq<Event>): Exec {
    if events == [] then NEW_EXEC else After(Run(events[..|events| - 1]), events[|events| - 1])
  }

  /** The executor's fields name exactly what its requests have left live. */
  predicate Inv(e: Exec) {
    && Held(e.trace) == Some(Holding(e.config, e.result, Process(e), e.files, e.groups))
    && e.groups >= 1
    && e.pgid == (if Process(e).Some? then Process(e).value else 0)
    && (!e.active ==> e.config.None? && e.result.None? && e.cmd.None? && !e.waiter)
  }

  lemma HeldPlus(trace: seq<Act>, a: Act)
    requires Held(trace).Some?
    ensures Held(trace + [a]) == Step(Held(trace).value, a)
  {
    assert (trace + [a])[..|trace|] == trace;
  }

  lemma CreateInv(e: Exec, role: Role)
    requires Inv(e) && e.active && (if role == Config then e.config else e.result).None?
    ensures Inv(CreateIn(e, role))
  {
    HeldPlus(e.trace, Create(role, e.files));
  }

  lemma SpawnInv(e: Exec)
    requires Inv(e) && e.active && Process(e).None?
    ensures Inv(SpawnIn(e))
  {
    HeldPlus(e.trace, Spawn(e.groups));
  }

  lemma ActivateInv(e: Exec)
    requires Inv(e)
    ensures Inv(e.(active := true))
  {
  }

  lemma PrepareInv(e: Exec)
    requires Inv(e) && e.active && e.result.None? && e.cmd.None?
    ensures Inv(PrepareIn(e))
  {
    CreateInv(e, ResultFile);
  }

  lemma StartInv(e: Exec, o: StartOutcome)
    requires Inv(e)
    ensures Inv(StartBy(e, o))
  {
    if !e.active {
      var e0 := e.(active := true);
      ActivateInv(e);
      CreateInv(e0, Config);
      PrepareInv(CreateIn(e0, Config));
      SpawnInv(PrepareIn(CreateIn(e0, Config)));
    }
  }

  lemma KilledHeld(trace: seq<Act>, g: nat)
    requires Held(trace).Some? && Held(trace).value.group == Some(g)
    ensures Held(trace + [Terminate(g), Kill(g)]) == Some(Held(trace).value.(group := None))
  {
    var termed := trace + [Terminate(g)];
    HeldPlus(trace, Terminate(g));
    HeldPlus(termed, Kill(g));
    assert trace + [Terminate(g), Kill(g)] == termed + [Kill(g)];
  }

  lemma AwaitedHeld(trace: seq<Act>, g: nat)
    requires Held(trace).Some? && Held(trace).value.group == Some(g)
    ensures Held(trace + [Terminate(g), Kill(g), Await(g)]) == Some(Held(trace).value.(group := None))
  {
    var killed := trace + [Terminate(g), Kill(g)];
    KilledHeld(trace, g);
    HeldPlus(killed, Await(g));
    assert trace + [Terminate(g), Kill(g), Await(g)] == killed + [Await(g)];
  }

  lemma StopActsHeld(e: Exec, w: WaitOutcome)
    requires Inv(e)
    ensures Held(e.trace + StopActs(e, w)) == Some(Holding(e.config, e.result, None, e.files, e.groups))
  {
    var t := e.trace;
    if Process(e).None? {
      assert t + [] == t;
    } else {
      KilledHeld(t, e.pgid);
      AwaitedHeld(t, e.pgid);
    }
  }

  lemma RemoveActsHeld(trace: seq<Act>, h: Holding)
    requires Held(trace) == Some(h)
    requires h.config.Some? ==> h.config != h.result
    ensures Held(trace + RemoveActs(h.config) + RemoveActs(h.result)) ==
            Some(h.(config := None, result := None))
  {
    var t := trace + RemoveActs(h.config);
    if h.config.Some? {
      HeldPlus(trace, Remove(h.config.value));
    } else {
      assert t == trace;
    }
    if h.result.Some? {
      HeldPlus(t, Remove(h.result.value));
    } else {
      assert t + RemoveActs(h.result) == t;
    }
  }

  /** A file is not held in both roles, and every name in use has been given out. */
  lemma {:induction false} HeldApart(trace: seq<Act>)
    requires Held(trace).Some?
    ensures var h := Held(trace).value;
            && (h.config.Some? ==> h.config.value < h.files && h.config != h.result)
            && (h.result.Some? ==> h.result.value < h.files)
            && (h.group.Some? ==> 1 <= h.group.value)
            && 1 <= h.groups
  {
    if trace != [] {
      HeldApart(trace[..|trace| - 1]);
    }
  }

  lemma StopInv(e: Exec, w: WaitOutcome)
    requires Inv(e)
    ensures Inv(StopBy(e, w))
  {
    if e.active {
      StopActsHeld(e, w);
      HeldApart(e.trace);
      RemoveActsHeld(e.trace + StopActs(e, w), Holding(e.config, e.result, None, e.files, e.groups));
    }
  }

  /**
   * Over every run, with starts that fail at any point and stops that end in
   * any way: no request is ever out of place, and the fields name what is live.
   */
  lemma {:induction false} RunInv(events: seq<Event>)
    ensures Inv(Run(events))
  {
    if events != [] {
      var before := events[..|events| - 1];
      RunInv(before);
      match events[|events| - 1]
      case Started(o) => StartInv(Run(before), o);
      case Stopped(w) => StopInv(Run(before), w);
    }
  }

  /** What is created or started was not held before. */
  lemma NotHeldYet(trace: seq<Act>, k: nat)
    requires Held(trace).Some? && k < |trace|
    ensures Held(trace[..k]).Some?
    ensures Step(Held(trace[..k]).value, trace[k]).Some?
  {
    PrefixHeld(trace, k);
    PrefixHeld(trace, k + 1);
    assert trace[..k + 1][..k] == trace[..k];
  }

  /**
   * At most one config file, one result file and one process group are live:
   * the earlier of two was removed, or sent SIGKILL, before the later was made.
   */
  lemma AtMostOneLive(events: seq<Event>, i: nat, k: nat)
    requires i < k < |Run(events).trace|
    ensures var t := Run(events).trace;
            && (t[i].Create? && t[k].Create? && t[i].role == t[k].role ==> LetGo(t[..k], i, Remove(t[i].file)))
            && (t[i].Spawn? && t[k].Spawn? ==> LetGo(t[..k], i, Kill(t[i].group)))
  {
    RunInv(events);
    OneAtATime(Run(events).trace, i, k);
  }

  lemma OneAtATime(t: seq<Act>, i: nat, k: nat)
    requires Held(t).Some? && i < k < |t|
    ensures t[i].Create? && t[k].Create? && t[i].role == t[k].role ==> LetGo(t[..k], i, Remove(t[i].file))
    ensures t[i].Spawn? && t[k].Spawn? ==> LetGo(t[..k], i, Kill(t[i].group))
  {
    NotHeldYet(t, k);
    AllAccounted(t[..k], i);
    assert t[..k][i] == t[i];
  }

  /** After a `Stop` every file ever created has been removed and every group ever started sent SIGKILL. */
  lemma StopReleasesAll(events: seq<Event>, w: WaitOutcome, i: nat)
    requires i < |Run(events + [Stopped(w)]).trace|
    ensures var t := Run(events + [Stopped(w)]).trace;
            && (t[i].Create? ==> LetGo(t, i, Remove(t[i].file)))
            && (t[i].Spawn? ==> LetGo(t, i, Kill(t[i].group)))
    ensures !Run(events + [Stopped(w)]).active
  {
    var all := events + [Stopped(w)];
    assert all[..|all| - 1] == events;
    RunInv(all);
    AllAccounted(Run(all).trace, i);
  }

  lemma {:induction false} HeldGroupWasSpawned(trace: seq<Act>) returns (j: nat)
    requires Held(trace).Some? && Held(trace).value.group.Some?
    ensures j < |trace| && trace[j] == Spawn(Held(trace).value.group.value)
    ensures !LetGo(trace, j, Kill(Held(trace).value.group.value))
  {
    var before, a := trace[..|trace| - 1], trace[|trace| - 1];
    if a.Spawn? {
      j := |trace| - 1;
    } else {
      j := HeldGroupWasSpawned(before);
      assert forall n :: j < n < |before| ==> trace[n] == before[n];
    }
  }

  /**
   * A SIGKILL goes to a group that this executor started and has not killed
   * yet, and never to group 0, which is the executor's own.
   */
  lemma KillsAreAimed(events: seq<Event>, k: nat) returns (j: nat)
    requires k < |Run(events).trace| && Run(events).trace[k].Kill?
    ensures var t := Run(events).trace;
            j < k && t[j] == Spawn(t[k].group) && t[k].group != 0 && !LetGo(t[..k], j, t[k])
  {
    var t := Run(events).trace;
    RunInv(events);
    NotHeldYet(t, k);
    HeldApart(t[..k]);
    j := HeldGroupWasSpawned(t[..k]);
  }

  /**
   * What a `Start` of an idle executor leaves live, at each point at which it
   * may fail: no file, the config file, both files, or both and a process. It
   * is active in any case, and only the last is no error.
   */
  lemma StartLeaves(e: Exec, o: StartOutcome)
    requires Inv(e) && !e.active
    ensures StartBy(e, o).active && (StartError(e, o).None? <==> o == Running)
    ensures Held(StartBy(e, o).trace).Some?
    ensures var h := Held(StartBy(e, o).trace).value;
            && (h.config.Some? <==> o != NoConfigFile)
            && (h.result.Some? <==> o == CommandFailed || o == Running)
            && (h.group.Some? <==> o == Running)
  {
    StartInv(e, o);
    StartMakes(e, o);
  }

  lemma StartMakes(e: Exec, o: StartOutcome)
    requires Inv(e) && !e.active
    ensures var q := StartBy(e, o);
            && (q.config.Some? <==> o != NoConfigFile)
            && (q.result.Some? <==> o == CommandFailed || o == Running)
            && (Process(q).Some? <==> o == Running)
  {
  }

  /** Each SIGKILL comes right after a SIGTERM to the same group. */
  ghost predicate KillsAreAnnounced(trace: seq<Act>) {
    forall k :: 0 <= k < |trace| && trace[k].Kill? ==> k > 0 && trace[k - 1] == Terminate(trace[k].group)
  }

  lemma AnnouncedPlus(trace: seq<Act>, more: seq<Act>)
    requires KillsAreAnnounced(trace) && KillsAreAnnounced(more)
    ensures KillsAreAnnounced(trace + more)
  {
    var t := trace + more;
    forall k | 0 <= k < |t| && t[k].Kill? ensures k > 0 && t[k - 1] == Terminate(t[k].group) {
      if k >= |trace| {
        assert more[k - |trace|].Kill?;
      }
    }
  }

  lemma StartAnnounces(e: Exec, o: StartOutcome)
    requires KillsAreAnnounced(e.trace)
    ensures KillsAreAnnounced(StartBy(e, o).trace)
  {
  }

  lemma StopAnnounces(e: Exec, w: WaitOutcome)
    requires Inv(e) && KillsAreAnnounced(e.trace)
    ensures KillsAreAnnounced(StopBy(e, w).trace)
  {
    AnnouncedPlus(e.trace, StopActs(e, w));
    AnnouncedPlus(e.trace + StopActs(e, w), RemoveActs(e.config));
    AnnouncedPlus(e.trace + StopActs(e, w) + RemoveActs(e.config), RemoveActs(e.result));
  }

  /** Over every run no group is sent SIGKILL without having been sent SIGTERM just before. */
  lemma {:induction false} TermBeforeKill(events: seq<Event>)
    ensures KillsAreAnnounced(Run(events).trace)
  {
    if events != [] {
      var before := events[..|events| - 1];
      TermBeforeKill(before);
      RunInv(before);
      match events[|events| - 1]
      case Started(o) => StartAnnounces(Run(before), o);
      case Stopped(w) => StopAnnounces(Run(before), w);
    }
  }
}

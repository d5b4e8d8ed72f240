/**
 * One game-server container as the server manager tracks it: the record, the
 * transitions on it, and the class that applies them in place.
 */
module Workers {
  import opened Base

  datatype Availability = Free | Occupied | Restarting

  /** The mutable fields of a worker. `validUntil` is None for Go's zero time. */
  datatype Rec = Rec(
    state: Availability,
    stateId: nat,
    validUntil: Option<Time>,
    matchId: int,
    failCount: nat)

  datatype Limits = Limits(maxPingRetries: nat, restartTimeout: nat)

  const FRESH := Rec(Free, 0, None, 0, 0)

  function Freed(w: Rec): Rec {
    Rec(Free, w.stateId + 1, None, 0, 0)
  }

  function Marked(w: Rec, now: Time, limits: Limits): Rec {
    Rec(Restarting, w.stateId + 1, Some(now + limits.restartTimeout), 0, 0)
  }

  function Taken(w: Rec, matchId: int): Rec {
    Rec(Occupied, w.stateId + 1, None, matchId, 0)
  }

  function Ponged(w: Rec, pong: bool): Rec {
    if w.state == Restarting then w
    else w.(failCount := if pong then 0 else w.failCount + 1)
  }

  predicate StateValid(w: Rec, now: Time) {
    w.validUntil.None? || now < w.validUntil.value
  }

  predicate Healthy(w: Rec, now: Time, limits: Limits) {
    StateValid(w, now) && w.failCount <= limits.maxPingRetries
  }

  class Worker {
    const id: string
    const containerId: string
    const limits: Limits

    var state: Availability
    var stateId: nat
    var stateValidUntil: Option<Time>
    var matchId: int
    var failCount: nat

    function View(): Rec
      reads this
    {
      Rec(state, stateId, stateValidUntil, matchId, failCount)
    }

    constructor (id: string, containerId: string, limits: Limits)
      ensures this.id == id && this.containerId == containerId && this.limits == limits
      ensures View() == FRESH
    {
      this.id, this.containerId, this.limits := id, containerId, limits;
      state, stateId, stateValidUntil, matchId, failCount := Free, 0, None, 0, 0;
    }

    method SetFree() returns (newId: nat)
      modifies this
      ensures View() == Freed(old(View()))
      ensures state == Free && matchId == 0 && failCount == 0 && stateValidUntil == None
      ensures newId == stateId == old(stateId) + 1
    {
      state := Free;
      stateId := stateId + 1;
      stateValidUntil := None;
      matchId := 0;
      failCount := 0;
      newId := stateId;
    }

    method SetRestarting(now: Time) returns (newId: nat)
      modifies this
      ensures View() == Marked(old(View()), now, limits)
      ensures state == Restarting && matchId == 0 && failCount == 0
      ensures stateValidUntil == Some(now + limits.restartTimeout)
      ensures newId == stateId == old(stateId) + 1
    {
      state := Restarting;
      stateId := stateId + 1;
      stateValidUntil := Some(now + limits.restartTimeout);
      matchId := 0;
      failCount := 0;
      newId := stateId;
    }

    method SetOccupied(m: int) returns (newId: nat)
      modifies this
      ensures View() == Taken(old(View()), m)
      ensures state == Occupied && matchId == m && failCount == 0 && stateValidUntil == None
      ensures newId == stateId == old(stateId) + 1
    {
      state := Occupied;
      stateId := stateId + 1;
      stateValidUntil := None;
      matchId := m;
      failCount := 0;
      newId := stateId;
    }

    method HandlePong(pong: bool)
      modifies this
      ensures View() == Ponged(old(View()), pong)
      ensures failCount == if state == Restarting then old(failCount) else if pong then 0 else old(failCount) + 1
      ensures View() == old(View()).(failCount := failCount)
    {
      if state == Restarting {
        return;
      }
      if !pong {
        failCount := failCount + 1;
      } else {
        failCount := 0;
      }
    }

    predicate IsStateValid(now: Time)
      reads this
    {
      stateValidUntil.None? || now < stateValidUntil.value
    }

    predicate IsHealthy(now: Time)
      reads this
      ensures IsHealthy(now) == Healthy(View(), now, limits)
    {
      IsStateValid(now) && failCount <= limits.maxPingRetries
    }
  }
}

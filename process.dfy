/**
 * A process of the new engine: an identity, a position, a state, a
 * processing duration and two optional timestamps.  Every read of the wall
 * clock in the source is an explicit `now` argument (milliseconds) here.
 */
module Processes {
  import opened Wrappers
  import opened Config
  import opened ProcessStates

  /** The colour a process is drawn in for each state; WAITING_CPU and PROCESSING share orange. */
  function StateColor(s: ProcessState): (c: Rgb)
    ensures c == Orange <==> s == WaitingCpu || s == Processing
    ensures s == Created <==> c == Blue
    ensures s == InQueue <==> c == LightGreen
    ensures s == InTransit <==> c == Purple
    ensures s == Completed <==> c == DarkGray
  {
    match s
    case Created => Blue
    case InQueue => LightGreen
    case InTransit => Purple
    case WaitingCpu => Orange
    case Processing => Orange
    case Completed => DarkGray
  }

  class Process {
    const id: int
    var x: int
    var y: int
    const radius: int
    var isActive: bool
    const creationTime: int
    var state: ProcessState
    var processingTimeMs: int
    var processingStartTime: Option<int>
    var queueEntryTime: Option<int>

    /** A process in PROCESSING has a start time; the completion check reads it. */
    ghost predicate Valid()
      reads this
    {
      state == Processing ==> processingStartTime.Some?
    }

    /** True when a completion check at time `now` finds the processing time used up. */
    ghost predicate ReadyAt(now: int)
      reads this
    {
      state == Processing && processingStartTime.Some? &&
      now - processingStartTime.value >= processingTimeMs
    }

    constructor (processId: int, spawnX: int, spawnY: int, now: int)
      ensures Valid()
      ensures id == processId && x == spawnX && y == spawnY && radius == 15
      ensures isActive && creationTime == now && state == Created
      ensures processingTimeMs == ProcessingTimeMs
      ensures processingStartTime == None && queueEntryTime == None
    {
      id := processId;
      x, y := spawnX, spawnY;
      radius := 15;
      isActive := true;
      creationTime := now;
      state := Created;
      processingTimeMs := ProcessingTimeMs;
      processingStartTime := None;
      queueEntryTime := None;
    }

    /** The colour of the current state. */
    function Color(): (c: Rgb)
      reads this
      ensures c == Orange <==> state == WaitingCpu || state == Processing
    {
      StateColor(state)
    }

    /** Enters PROCESSING at `now`, clearing the queue-entry time. */
    method StartProcessing(now: int)
      modifies this`state, this`processingStartTime, this`queueEntryTime
      ensures Valid()
      ensures state == Processing && processingStartTime == Some(now) && queueEntryTime == None
      ensures x == old(x) && y == old(y) && isActive == old(isActive)
      ensures processingTimeMs == old(processingTimeMs)
    {
      state := Processing;
      processingStartTime := Some(now);
      queueEntryTime := None;
    }

    /** Joins a CPU queue at `now`. */
    method EnterCpuQueue(now: int)
      modifies this`state, this`queueEntryTime
      ensures Valid()
      ensures state == WaitingCpu && queueEntryTime == Some(now)
      ensures x == old(x) && y == old(y) && isActive == old(isActive)
      ensures processingTimeMs == old(processingTimeMs) && processingStartTime == old(processingStartTime)
    {
      queueEntryTime := Some(now);
      state := WaitingCpu;
    }

    /**
     * Reports completion exactly when the process is PROCESSING and its time
     * is used up, and then retires it; otherwise nothing changes.  Since a
     * retired process is no longer PROCESSING, a later call returns false.
     */
    method IsProcessingComplete(now: int) returns (done: bool)
      requires Valid()
      modifies this
      ensures Valid()
      ensures done == old(ReadyAt(now))
      ensures done ==> state == Completed && !isActive
      ensures done ==> x == old(x) && y == old(y) && processingTimeMs == old(processingTimeMs)
      ensures done ==> processingStartTime == old(processingStartTime) && queueEntryTime == old(queueEntryTime)
      ensures !done ==> unchanged(this)
    {
      done := false;
      if state == Processing {
        var elapsed := now - processingStartTime.value;
        if elapsed >= processingTimeMs {
          state := Completed;
          isActive := false;
          done := true;
        }
      }
    }

    /**
     * `update_position`: a process IN_TRANSIT or PROCESSING reports arrival
     * without moving.  Otherwise the source steps towards the target in
     * floating point; `withinStep` stands for "the target is no farther than
     * one step", in which case the process snaps onto the target and reports
     * arrival.  The partial step itself is not modelled.
     */
    method UpdatePosition(targetX: int, targetY: int, withinStep: bool) returns (arrived: bool)
      modifies this`x, this`y
      ensures old(state) == InTransit || old(state) == Processing ==> arrived && unchanged(this)
      ensures !(old(state) == InTransit || old(state) == Processing) ==>
                arrived == withinStep &&
                (withinStep ==> x == targetX && y == targetY)
      ensures state == old(state) && isActive == old(isActive)
    {
      if state == InTransit || state == Processing {
        return true;
      }
      if withinStep {
        x, y := targetX, targetY;
        return true;
      }
      return false;
    }
  }

  /** A process can be found complete at most once: a second check, at any later time, reports false. */
  method CompletesAtMostOnce(p: Process, t1: int, t2: int) returns (first: bool, second: bool)
    requires p.Valid()
    modifies p
    ensures first ==> !second
    ensures !first ==> second == old(p.ReadyAt(t2))
  {
    first := p.IsProcessingComplete(t1);
    second := p.IsProcessingComplete(t2);
  }
}

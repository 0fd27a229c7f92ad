/**
 * A computer of the new engine: a one-slot server with idle and stopped
 * flags, a current process, its own FIFO queue and a processing time.
 * Its geometry is a constructor parameter: the program computes it with
 * `GridHelper.grid_to_pixels`, which utils/grid_helper.py does not define,
 * from `GridPositions.COMPUTER_1..3`, which config/__init__.py does not
 * define.
 */
module Computers {
  import opened Wrappers
  import opened Config
  import opened ProcessStates
  import opened Processes

  class Computer {
    const computerId: int
    const x: int
    const y: int
    const width: int
    const height: int
    var isIdle: bool
    var currentProcess: Process?
    var isStopped: bool
    var preStopState: Option<bool>
    var processingTimeMs: int
    const baseColor: Rgb
    var queue: seq<Process>

    /** Idle exactly when there is no current process, and the current process is well formed. */
    ghost predicate Valid()
      reads this, currentProcess
    {
      isIdle == (currentProcess == null) &&
      (currentProcess != null ==> currentProcess.Valid())
    }

    constructor (id: int, px: int, py: int, w: int, h: int, color: Option<Rgb>)
      ensures Valid()
      ensures computerId == id && x == px && y == py && width == w && height == h
      ensures isIdle && currentProcess == null && !isStopped && preStopState == None
      ensures processingTimeMs == ProcessingTimeMs && queue == []
      ensures baseColor == (if color.Some? then color.value else Red)
    {
      computerId := id;
      x, y, width, height := px, py, w, h;
      isIdle := true;
      currentProcess := null;
      isStopped := false;
      preStopState := None;
      processingTimeMs := ProcessingTimeMs;
      baseColor := if color.Some? then color.value else Red;
      queue := [];
    }

    /**
     * What the colour tells the player: dark grey whenever stopped and, for a
     * base colour other than the two greys, dark grey exactly when stopped,
     * grey exactly when running idle, and the base colour exactly when busy.
     */
    function Color(): (c: Rgb)
      reads this
      ensures isStopped ==> c == DarkGray
      ensures baseColor != Gray && baseColor != DarkGray ==>
                (c == DarkGray <==> isStopped) &&
                (c == Gray <==> !isStopped && isIdle) &&
                (c == baseColor <==> !isStopped && !isIdle)
    {
      if isStopped then DarkGray
      else if !isIdle then baseColor else Gray
    }

    /**
     * The closed rectangle [x, x + width] x [y, y + height] contains the
     * point: its corners count as hits, nothing outside its bounds does.
     */
    function IsClicked(px: int, py: int): (b: bool)
      reads this
      ensures width >= 0 && height >= 0 && (px == x || px == x + width) && (py == y || py == y + height) ==> b
      ensures px < x || x + width < px || py < y || y + height < py ==> !b
    {
      x <= px <= x + width && y <= py <= y + height
    }

    /** The centre, by floor division of the size. */
    function Center(): (c: (int, int))
      ensures width >= 0 && height >= 0 ==> IsClicked(c.0, c.1)
    {
      (x + width / 2, y + height / 2)
    }

    /** Flips the stopped flag, through `Resume` or `Stop`. */
    method ToggleStop()
      requires Valid()
      modifies this
      ensures Valid()
      ensures isStopped == !old(isStopped)
      ensures !old(isStopped) ==> preStopState == Some(old(isIdle))
      ensures old(isStopped) ==> preStopState == old(preStopState)
      ensures isIdle == old(isIdle) && currentProcess == old(currentProcess) && queue == old(queue)
      ensures processingTimeMs == old(processingTimeMs)
    {
      if isStopped {
        Resume();
      } else {
        Stop();
      }
    }

    /** Stops the computer; the idle flag is recorded only on a real transition. */
    method Stop()
      requires Valid()
      modifies this
      ensures Valid()
      ensures isStopped
      ensures preStopState == if old(isStopped) then old(preStopState) else Some(old(isIdle))
      ensures isIdle == old(isIdle) && currentProcess == old(currentProcess) && queue == old(queue)
      ensures processingTimeMs == old(processingTimeMs)
    {
      if !isStopped {
        isStopped := true;
        preStopState := Some(isIdle);
      }
    }

    /** Resumes the computer. */
    method Resume()
      requires Valid()
      modifies this
      ensures Valid()
      ensures !isStopped
      ensures preStopState == old(preStopState)
      ensures isIdle == old(isIdle) && currentProcess == old(currentProcess) && queue == old(queue)
      ensures processingTimeMs == old(processingTimeMs)
    {
      if isStopped {
        isStopped := false;
      }
    }

    /**
     * Sets the processing time to `int(seconds * 1000)` milliseconds for a
     * positive argument; `int` truncates, which is the floor for positive
     * values.  A non-positive argument is ignored.
     */
    method SetProcessingTime(seconds: real)
      requires Valid()
      modifies this
      ensures Valid()
      ensures processingTimeMs == if seconds > 0.0 then (seconds * 1000.0).Floor else old(processingTimeMs)
      ensures isIdle == old(isIdle) && isStopped == old(isStopped) && currentProcess == old(currentProcess)
      ensures queue == old(queue) && preStopState == old(preStopState)
    {
      if seconds > 0.0 {
        processingTimeMs := (seconds * 1000.0).Floor;
      }
    }

    /** The number of processes waiting in this computer's own queue. */
    function QueueLength(): (n: nat)
      reads this
      ensures n == 0 <==> queue == []
    {
      |queue|
    }

    /** Marks the process as waiting since `now` and appends it to the queue. */
    method AddToQueue(p: Process, now: int) returns (ok: bool)
      requires Valid()
      modifies this, p`state, p`queueEntryTime
      ensures Valid()
      ensures ok
      ensures queue == old(queue) + [p] && QueueLength() == old(QueueLength()) + 1
      ensures p.state == WaitingCpu && p.queueEntryTime == Some(now)
      ensures p.x == old(p.x) && p.y == old(p.y) && p.isActive == old(p.isActive)
      ensures p.processingTimeMs == old(p.processingTimeMs) && p.processingStartTime == old(p.processingStartTime)
      ensures isIdle == old(isIdle) && isStopped == old(isStopped) && currentProcess == old(currentProcess)
      ensures processingTimeMs == old(processingTimeMs)
    {
      p.EnterCpuQueue(now);
      queue := queue + [p];
      return true;
    }

    /** Removes and returns the head of the queue, or returns null on an empty queue. */
    method GetNextProcess() returns (p: Process?)
      requires Valid()
      modifies this
      ensures Valid()
      ensures old(queue) == [] ==> p == null && queue == []
      ensures old(queue) != [] ==> p == old(queue)[0] && queue == old(queue)[1..]
      ensures old(queue) != [] ==> [p] + queue == old(queue)
      ensures isIdle == old(isIdle) && isStopped == old(isStopped) && currentProcess == old(currentProcess)
      ensures processingTimeMs == old(processingTimeMs)
    {
      if queue != [] {
        p := queue[0];
        queue := queue[1..];
      } else {
        p := null;
      }
    }

    /**
     * Does nothing while stopped.  Otherwise the process becomes the current
     * one, takes this computer's processing time and enters PROCESSING at `now`.
     */
    method StartProcessing(p: Process, now: int)
      requires Valid()
      modifies this, p`state, p`processingStartTime, p`queueEntryTime, p`processingTimeMs
      ensures Valid()
      ensures old(isStopped) ==> unchanged(this) && unchanged(p)
      ensures !old(isStopped) ==>
                currentProcess == p && !isIdle &&
                p.processingTimeMs == processingTimeMs &&
                p.state == Processing && p.processingStartTime == Some(now) && p.queueEntryTime == None
      ensures !old(isStopped) ==> p.x == old(p.x) && p.y == old(p.y) && p.isActive == old(p.isActive)
      ensures isStopped == old(isStopped) && processingTimeMs == old(processingTimeMs)
      ensures queue == old(queue) && preStopState == old(preStopState)
    {
      if !isStopped {
        currentProcess := p;
        isIdle := false;
        p.processingTimeMs := processingTimeMs;
        p.StartProcessing(now);
      }
    }

    /**
     * Succeeds only when the computer runs, has a current process and that
     * process reports completion at `now`; the slot is then freed.  Otherwise
     * nothing changes.
     */
    method CheckProcessingComplete(now: int) returns (done: bool)
      requires Valid()
      modifies this, currentProcess
      ensures Valid()
      ensures done == (!old(isStopped) && old(currentProcess) != null && old(currentProcess.ReadyAt(now)))
      ensures done ==> currentProcess == null && isIdle
      ensures done ==> old(currentProcess).state == Completed && !old(currentProcess).isActive
      ensures done ==> var c := old(currentProcess);
                c.x == old(c.x) && c.y == old(c.y) && c.processingTimeMs == old(c.processingTimeMs) &&
                c.processingStartTime == old(c.processingStartTime) && c.queueEntryTime == old(c.queueEntryTime)
      ensures !done ==> unchanged(this) && (old(currentProcess) != null ==> unchanged(old(currentProcess)))
      ensures isStopped == old(isStopped) && processingTimeMs == old(processingTimeMs)
      ensures queue == old(queue) && preStopState == old(preStopState)
    {
      done := false;
      if !isStopped && currentProcess != null {
        var finished := currentProcess.IsProcessingComplete(now);
        if finished {
          currentProcess := null;
          isIdle := true;
          done := true;
        }
      }
    }
  }
}
